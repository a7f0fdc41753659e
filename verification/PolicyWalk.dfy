/** The walk itself: one worklist, one visited set, and what it establishes. */
module PolicyWalk {
  import opened Wrappers
  import opened Text
  import opened PolicyModules
  import opened PolicyClosure

  // ---- the loop's invariant ---------------------------------------------

  ghost predicate Held(t: Tree, roots: seq<string>, visited: set<string>, path: string, d: nat) {
    && Required(t, roots, path)
    && exists trail :: Elements(trail) <= visited && Offered(t, roots, trail, path, d)
  }

  /** Whatever the visited files run has been visited or is waiting. */
  ghost predicate Covered(t: Tree, roots: seq<string>, visited: set<string>, waiting: set<string>) {
    && (forall r :: r in roots ==> Elements(t.run(r)) <= visited + waiting)
    && (forall x, y :: x in visited && Imports(t, x, y) ==> Elements(t.run(y)) <= visited + waiting)
  }

  ghost predicate Walking(t: Tree, roots: seq<string>, visited: set<string>, pending: Pending) {
    && (forall p :: p in visited ==> Required(t, roots, p) && Clean(t, p))
    && (forall i :: 0 <= i < |pending| ==> Held(t, roots, visited, pending[i].0, pending[i].1))
    && Covered(t, roots, visited, Paths(pending))
  }

  lemma WalkStarts(t: Tree, roots: seq<string>, pending: Pending)
    requires Grows(t, roots, 0, [], pending)
    ensures Walking(t, roots, {}, pending)
  {
    assert pending[0..] == pending;
    forall i | 0 <= i < |pending| ensures Held(t, roots, {}, pending[i].0, pending[i].1) {
      var e := pending[i];
      assert e in pending;
      var r :| r in roots && At(t, r, 0, e.0, e.1);
      RunIsRequired(t, roots, r, e.0, e.1, 0);
      assert Offered(t, roots, [], e.0, e.1) && Elements([]) <= {};
    }
  }

  lemma RunIsRequired(t: Tree, roots: seq<string>, target: string, path: string, d: nat, depth: nat)
    requires At(t, target, depth, path, d)
    requires target in roots || exists x :: Required(t, roots, x) && Imports(t, x, target)
    ensures Required(t, roots, path)
  {
    assert path in t.run(target);
    forall s: set<string> | Closed(t, roots, s) ensures path in s {
      if target !in roots {
        var x :| Required(t, roots, x) && Imports(t, x, target);
        assert x in s;
      }
      assert path in Elements(t.run(target));
    }
  }

  lemma PathsPush(rest: Pending, x: string, d: nat)
    ensures Paths(rest + [(x, d)]) == Paths(rest) + {x}
  {
    assert (rest + [(x, d)])[|rest|] == (x, d);
  }

  lemma CoveredSame(t: Tree, roots: seq<string>, visited: set<string>, a: set<string>, b: set<string>)
    requires Covered(t, roots, visited, a) && visited + a == visited + b
    ensures Covered(t, roots, visited, b)
  {
  }

  lemma WalkSkips(t: Tree, roots: seq<string>, visited: set<string>, rest: Pending, x: string, d: nat)
    requires Walking(t, roots, visited, rest + [(x, d)]) && x in visited
    ensures Walking(t, roots, visited, rest)
  {
    var pending := rest + [(x, d)];
    PathsPush(rest, x, d);
    CoveredSame(t, roots, visited, Paths(pending), Paths(rest));
    forall i | 0 <= i < |rest| ensures Held(t, roots, visited, rest[i].0, rest[i].1) {
      assert pending[i] == rest[i];
    }
  }

  lemma NewlyHeld(t: Tree, roots: seq<string>, visited: set<string>, x: string, depth: nat, y: string,
                  path: string, d: nat)
    requires Held(t, roots, visited, x, depth) && x !in visited && Imports(t, x, y) && At(t, y, depth + 1, path, d)
    ensures Held(t, roots, visited + {x}, path, d)
  {
    var trail :| Elements(trail) <= visited && Offered(t, roots, trail, x, depth);
    var longer := trail + [x];
    assert x !in Elements(trail);
    assert longer[..|longer| - 1] == trail;
    assert Chain(t, roots, longer, depth);
    assert Steps(t, x, depth, path, d);
    assert Offered(t, roots, longer, path, d);
    forall z | z in Elements(longer) ensures z in visited + {x} {
      assert z in trail || z == x;
      assert z in trail ==> z in Elements(trail);
    }
    RunIsRequired(t, roots, y, path, d, depth + 1);
  }

  lemma StillHeld(t: Tree, roots: seq<string>, visited: set<string>, x: string, path: string, d: nat)
    requires Held(t, roots, visited, path, d)
    ensures Held(t, roots, visited + {x}, path, d)
  {
    var trail :| Elements(trail) <= visited && Offered(t, roots, trail, path, d);
    assert Elements(trail) <= visited + {x};
  }

  lemma VisitHolds(t: Tree, roots: seq<string>, visited: set<string>, rest: Pending, x: string, depth: nat,
                   targets: seq<string>, after: Pending)
    requires Walking(t, roots, visited, rest + [(x, depth)]) && x !in visited
    requires forall y :: y in targets <==> Imports(t, x, y)
    requires Grows(t, targets, depth + 1, rest, after)
    ensures forall i :: 0 <= i < |after| ==> Held(t, roots, visited + {x}, after[i].0, after[i].1)
  {
    var pending := rest + [(x, depth)];
    assert pending[|rest|] == (x, depth);
    assert Held(t, roots, visited, x, depth);
    forall i | 0 <= i < |after| ensures Held(t, roots, visited + {x}, after[i].0, after[i].1) {
      if i < |rest| {
        assert after[i] == pending[i];
        StillHeld(t, roots, visited, x, after[i].0, after[i].1);
      } else {
        var e := after[i];
        assert e == after[|rest|..][i - |rest|];
        var y :| y in targets && At(t, y, depth + 1, e.0, e.1);
        NewlyHeld(t, roots, visited, x, depth, y, e.0, e.1);
      }
    }
  }

  lemma VisitCovers(t: Tree, roots: seq<string>, visited: set<string>, rest: Pending, x: string, depth: nat,
                    targets: seq<string>, after: Pending)
    requires Covered(t, roots, visited, Paths(rest + [(x, depth)]))
    requires forall y :: y in targets <==> Imports(t, x, y)
    requires Grows(t, targets, depth + 1, rest, after)
    ensures Covered(t, roots, visited + {x}, Paths(after))
  {
    PathsPush(rest, x, depth);
    assert after == rest + after[|rest|..];
    assert Paths(rest) <= Paths(after) && Paths(after[|rest|..]) <= Paths(after);
    var before, now := visited + Paths(rest + [(x, depth)]), visited + {x} + Paths(after);
    assert before <= now;
    forall z, y | z in visited + {x} && Imports(t, z, y) ensures Elements(t.run(y)) <= now {
      if z == x {
        assert y in targets;
      }
    }
  }

  /** When nothing waits, the visited files are the closure. */
  lemma WalkEnds(t: Tree, roots: seq<string>, visited: set<string>)
    requires Grounded(t) && Walking(t, roots, visited, [])
    ensures visited == Closure(t, roots)
  {
    assert Paths([]) == {};
    assert Closed(t, roots, visited) by {
      assert visited + {} == visited;
    }
    ClosureIsLeast(t, roots);
  }

  // ---- failures ---------------------------------------------------------

  lemma OfferedPastLimit(t: Tree, roots: seq<string>, visited: set<string>, x: string, depth: nat)
    requires Held(t, roots, visited, x, depth) && depth > MAX_IMPORT_DEPTH
    ensures TooDeep(t, roots)
  {
    var trail :| Elements(trail) <= visited && Offered(t, roots, trail, x, depth);
    if trail == [] {
      var r :| r in roots && At(t, r, 0, x, depth);
      assert |t.run(r)| - 1 > MAX_IMPORT_DEPTH;
    } else {
      var e := OfferedBy(t, roots, trail, x, depth);
      var y :| Imports(t, trail[|trail| - 1], y) && At(t, y, e + 1, x, depth);
      assert e + |t.run(y)| > MAX_IMPORT_DEPTH;
    }
  }

  lemma DeepImport(t: Tree, roots: seq<string>, visited: set<string>, x: string, depth: nat, targets: seq<string>)
    requires Held(t, roots, visited, x, depth) && x !in visited
    requires forall y :: y in targets <==> Imports(t, x, y)
    requires DeepTarget(t, targets, depth + 1)
    ensures TooDeep(t, roots)
  {
    var trail :| Elements(trail) <= visited && Offered(t, roots, trail, x, depth);
    var longer := trail + [x];
    assert x !in Elements(trail);
    assert longer[..|longer| - 1] == trail;
    assert Chain(t, roots, longer, depth);
    var y :| y in targets && depth + 1 + |t.run(y)| - 1 > MAX_IMPORT_DEPTH;
    assert Imports(t, longer[|longer| - 1], y);
  }

  lemma VisitedInClosure(t: Tree, roots: seq<string>, visited: set<string>, pending: Pending)
    requires Grounded(t) && Walking(t, roots, visited, pending) && pending != []
    ensures visited + {pending[|pending| - 1].0} <= Closure(t, roots)
  {
    ClosureIsLeast(t, roots);
    assert Held(t, roots, visited, pending[|pending| - 1].0, pending[|pending| - 1].1);
  }

  /** Too many files visited means too many in the closure. */
  lemma TooMany(t: Tree, roots: seq<string>, visited: set<string>, x: string)
    requires visited + {x} <= Closure(t, roots) && x !in visited && |visited| >= MAX_CLOSURE_MODULES
    ensures Explained(t, roots, ModuleLimit)
  {
    SizeMonotone(visited + {x}, Closure(t, roots));
  }

  lemma TooLarge(t: Tree, roots: seq<string>, visited: set<string>, x: string)
    requires visited + {x} <= Closure(t, roots) && x !in visited
    ensures Sum(p => SizeAt(t, p), visited) + SizeAt(t, x) <= Sum(p => SizeAt(t, p), Closure(t, roots))
    ensures Sum(p => NodesAt(t, p), visited) + NodesAt(t, x) <= Sum(p => NodesAt(t, p), Closure(t, roots))
  {
    SumAdd(p => SizeAt(t, p), visited, x);
    SumMonotone(p => SizeAt(t, p), visited + {x}, Closure(t, roots));
    SumAdd(p => NodesAt(t, p), visited, x);
    SumMonotone(p => NodesAt(t, p), visited + {x}, Closure(t, roots));
  }

  // ---- one module -------------------------------------------------------

  lemma TargetsAreImports(t: Tree, x: string)
    requires Parses(t, x)
    ensures forall y :: y in TargetsUpTo(t, x, t.sources[x].nodes.value) <==> Imports(t, x, y)
  {
    TargetsUpToIs(t, x, t.sources[x].nodes.value);
  }

  lemma DeepPrefix(t: Tree, a: seq<string>, b: seq<string>, depth: nat)
    requires DeepTarget(t, a, depth) && forall y :: y in a ==> y in b
    ensures DeepTarget(t, b, depth)
  {
    var y :| y in a && depth + |t.run(y)| - 1 > MAX_IMPORT_DEPTH;
    assert y in b;
  }

  lemma NextNode(t: Tree, path: string, nodes: seq<Node>, i: nat)
    requires i < |nodes|
    ensures TargetsUpTo(t, path, nodes[..i + 1]) == TargetsUpTo(t, path, nodes[..i]) + t.targets(path, nodes[i])
    ensures forall y :: y in t.targets(path, nodes[i]) ==> y in TargetsUpTo(t, path, nodes)
  {
    assert nodes[..i + 1][..i] == nodes[..i];
    TargetsUpToIs(t, path, nodes);
  }

  /** The worklist after the first `i` nodes of a module. */
  ghost predicate ScannedTo(t: Tree, path: string, nodes: seq<Node>, i: nat, depth: nat,
                            before: Pending, after: Pending)
    requires i <= |nodes|
  {
    && Grows(t, TargetsUpTo(t, path, nodes[..i]), depth, before, after)
    && forall j :: 0 <= j < i ==> t.fault(path, nodes[j]).None?
  }

  ghost predicate ScanFails(t: Tree, path: string, nodes: seq<Node>, depth: nat, e: ImportError) {
    || (e == DepthLimit && DeepTarget(t, TargetsUpTo(t, path, nodes), depth))
    || exists i :: 0 <= i < |nodes| && t.fault(path, nodes[i]) == Some(e)
  }

  lemma NextScanned(t: Tree, path: string, nodes: seq<Node>, i: nat, depth: nat,
                    before: Pending, after: Pending, next: Pending)
    requires i < |nodes| && ScannedTo(t, path, nodes, i, depth, before, after)
    requires t.fault(path, nodes[i]).None? && Grows(t, t.targets(path, nodes[i]), depth, after, next)
    ensures ScannedTo(t, path, nodes, i + 1, depth, before, next)
  {
    NextNode(t, path, nodes, i);
    GrowsOn(t, before, after, next, TargetsUpTo(t, path, nodes[..i]), t.targets(path, nodes[i]), depth);
  }

  lemma NodeFails(t: Tree, path: string, nodes: seq<Node>, i: nat, depth: nat, e: ImportError)
    requires i < |nodes|
    requires t.fault(path, nodes[i]) == Some(e) || (e == DepthLimit && DeepTarget(t, t.targets(path, nodes[i]), depth))
    ensures ScanFails(t, path, nodes, depth, e)
  {
    if t.fault(path, nodes[i]) != Some(e) {
      NextNode(t, path, nodes, i);
      DeepPrefix(t, t.targets(path, nodes[i]), TargetsUpTo(t, path, nodes), depth);
    }
  }

  /** Count and scan the nodes of a parsed module in walk order. */
  method ScanModule(t: Tree, modules: map<string, string>, pending: Pending, path: string, nodes: seq<Node>,
                    depth: nat, seen: nat)
    returns (r: Result<Pending, ImportError>)
    requires t == TreeOf(t.sources, modules) && seen <= MAX_AST_NODES
    ensures r.Ok? ==> ScannedTo(t, path, nodes, |nodes|, depth, pending, r.value) && seen + |nodes| <= MAX_AST_NODES
    ensures r.Err? ==>
      (r.error == AstLimit && seen + |nodes| > MAX_AST_NODES) || ScanFails(t, path, nodes, depth, r.error)
  {
    var out := pending;
    var i := 0;
    while i < |nodes|
      invariant 0 <= i <= |nodes| && seen + i <= MAX_AST_NODES
      invariant ScannedTo(t, path, nodes, i, depth, pending, out)
    {
      if seen + i + 1 > MAX_AST_NODES {
        return Err(AstLimit);
      }
      var next := ScanNode(t, modules, out, path, nodes[i], depth);
      if next.Err? {
        NodeFails(t, path, nodes, i, depth, next.error);
        return next;
      }
      NextScanned(t, path, nodes, i, depth, pending, out, next.value);
      out := next.value;
      i := i + 1;
    }
    return Ok(out);
  }

  // ---- the walk ---------------------------------------------------------

  /** `tuple(sorted(s))` */
  method SortedListing(s: set<string>) returns (r: seq<string>)
    ensures StrictlySorted(r) && Elements(r) == s
  {
    r := [];
    var rest := s;
    while rest != {}
      invariant rest <= s && StrictlySorted(r) && Elements(r) == s - rest
      decreases rest
    {
      var x :| x in rest;
      r := Insert(r, x);
      rest := rest - {x};
    }
  }

  /** The loop's variables: what is visited and waiting, and the running totals over the visited. */
  ghost predicate WalkState(t: Tree, roots: seq<string>, visited: set<string>, pending: Pending,
                            sourceBytes: nat, astNodes: nat)
  {
    && Walking(t, roots, visited, pending)
    && |visited| <= MAX_CLOSURE_MODULES && visited <= t.sources.Keys
    && sourceBytes == Sum(p => SizeAt(t, p), visited) <= MAX_SOURCE_BYTES
    && astNodes == Sum(p => NodesAt(t, p), visited) <= MAX_AST_NODES
  }

  lemma WalkFits(t: Tree, roots: seq<string>, visited: set<string>, sourceBytes: nat, astNodes: nat)
    requires Grounded(t) && |t.sources| <= MAX_INDEXED_PATHS
    requires WalkState(t, roots, visited, [], sourceBytes, astNodes)
    ensures visited == Closure(t, roots) && Fits(t, roots)
  {
    WalkEnds(t, roots, visited);
  }

  lemma WalkBegins(t: Tree, roots: seq<string>, pending: Pending)
    requires Grows(t, roots, 0, [], pending)
    ensures WalkState(t, roots, {}, pending, 0, 0)
  {
    WalkStarts(t, roots, pending);
  }

  lemma WalkShrinks(files: set<string>, visited: set<string>, path: string)
    requires path in files && path !in visited
    ensures files - (visited + {path}) < files - visited
  {
    assert path in files - visited;
  }

  datatype Walk = Walk(visited: set<string>, pending: Pending, sourceBytes: nat, astNodes: nat)

  ghost predicate Sound(t: Tree, roots: seq<string>, w: Walk) {
    WalkState(t, roots, w.visited, w.pending, w.sourceBytes, w.astNodes)
  }

  /** Fewer files left to visit, or as many and a shorter worklist. */
  ghost predicate Shrinks(t: Tree, before: Walk, after: Walk) {
    || t.sources.Keys - after.visited < t.sources.Keys - before.visited
    || (after.visited == before.visited && |after.pending| < |before.pending|)
  }

  method WalkClosure(t: Tree, modules: map<string, string>, roots: seq<string>)
    returns (r: Result<seq<string>, ImportError>)
    requires t == TreeOf(t.sources, modules) && Grounded(t)
    requires |t.sources| <= MAX_INDEXED_PATHS
    ensures r.Ok? ==> Fits(t, roots) && StrictlySorted(r.value) && Elements(r.value) == Closure(t, roots)
    ensures r.Err? ==> Explained(t, roots, r.error)
  {
    var started := EnqueueAll(t, [], roots, 0);
    if started.Err? {
      return Err(started.error);
    }
    WalkBegins(t, roots, started.value);
    var w := Walk({}, started.value, 0, 0);
    while w.pending != []
      invariant Sound(t, roots, w)
      decreases t.sources.Keys - w.visited, |w.pending|
    {
      var next := Step(t, modules, roots, w);
      if next.Err? {
        return Err(next.error);
      }
      w := next.value;
    }
    WalkFits(t, roots, w.visited, w.sourceBytes, w.astNodes);
    var listing := SortedListing(w.visited);
    return Ok(listing);
  }

  /** Pop one entry; a file seen before is skipped. */
  method Step(t: Tree, modules: map<string, string>, ghost roots: seq<string>, w: Walk)
    returns (r: Result<Walk, ImportError>)
    requires t == TreeOf(t.sources, modules) && Grounded(t) && Sound(t, roots, w) && w.pending != []
    ensures r.Ok? ==> Sound(t, roots, r.value) && Shrinks(t, w, r.value)
    ensures r.Err? ==> Explained(t, roots, r.error)
  {
    var n := |w.pending| - 1;
    var (path, depth) := w.pending[n];
    var rest := w.(pending := w.pending[..n]);
    Popped(w, rest, path, depth);
    if path in w.visited {
      SkipState(t, roots, w, rest.pending, path, depth);
      return Ok(rest);
    }
    r := Visit(t, modules, roots, rest, path, depth);
    if r.Ok? {
      ShrinksFurther(t, w, rest, r.value);
    }
  }

  lemma Popped(w: Walk, rest: Walk, path: string, depth: nat)
    requires w.pending != [] && w.pending[|w.pending| - 1] == (path, depth)
    requires rest == w.(pending := w.pending[..|w.pending| - 1])
    ensures w.pending == rest.pending + [(path, depth)] && rest.(pending := rest.pending + [(path, depth)]) == w
  {
  }

  lemma ShrinksFurther(t: Tree, w: Walk, rest: Walk, after: Walk)
    requires rest.visited == w.visited && |rest.pending| < |w.pending| && Shrinks(t, rest, after)
    ensures Shrinks(t, w, after)
  {
  }

  lemma SkipState(t: Tree, roots: seq<string>, w: Walk, rest: Pending, path: string, depth: nat)
    requires Sound(t, roots, w) && w.pending == rest + [(path, depth)] && path in w.visited
    ensures Sound(t, roots, w.(pending := rest)) && Shrinks(t, w, w.(pending := rest))
  {
    WalkSkips(t, roots, w.visited, rest, path, depth);
  }

  /** One unvisited entry: the limits, the file, and the entries its imports add. */
  method Visit(t: Tree, modules: map<string, string>, ghost roots: seq<string>, w: Walk, path: string, depth: nat)
    returns (r: Result<Walk, ImportError>)
    requires t == TreeOf(t.sources, modules) && Grounded(t) && path !in w.visited
    requires Sound(t, roots, w.(pending := w.pending + [(path, depth)]))
    ensures r.Err? ==> Explained(t, roots, r.error)
    ensures r.Ok? ==> Sound(t, roots, r.value) && Shrinks(t, w, r.value)
  {
    TopEntry(t, roots, w.visited, w.pending, path, depth);
    if depth > MAX_IMPORT_DEPTH {
      OfferedPastLimit(t, roots, w.visited, path, depth);
      return Err(DepthLimit);
    }
    TooLarge(t, roots, w.visited, path);
    if path !in t.sources || !InternalPath(path) {
      return Err(Missing);
    }
    if |w.visited| >= MAX_CLOSURE_MODULES {
      TooMany(t, roots, w.visited, path);
      return Err(ModuleLimit);
    }
    if w.sourceBytes + t.sources[path].size > MAX_SOURCE_BYTES {
      return Err(SourceLimit);
    }
    if t.sources[path].nodes.None? {
      return Err(Invalid);
    }
    var grown := Expand(t, modules, roots, w.visited, w.pending, path, depth, w.astNodes);
    if grown.Err? {
      return Err(grown.error);
    }
    VisitState(t, roots, w, path, grown.value);
    return Ok(Visited(t, w, path, grown.value));
  }

  function Visited(t: Tree, w: Walk, path: string, pending: Pending): Walk
    requires Parses(t, path)
  {
    Walk(w.visited + {path}, pending, w.sourceBytes + t.sources[path].size,
         w.astNodes + |t.sources[path].nodes.value|)
  }

  lemma VisitState(t: Tree, roots: seq<string>, w: Walk, path: string, pending: Pending)
    requires Parses(t, path) && path !in w.visited && w.visited <= t.sources.Keys
    requires Walking(t, roots, w.visited + {path}, pending) && |w.visited| < MAX_CLOSURE_MODULES
    requires w.sourceBytes == Sum(p => SizeAt(t, p), w.visited)
    requires w.astNodes == Sum(p => NodesAt(t, p), w.visited)
    requires w.sourceBytes + t.sources[path].size <= MAX_SOURCE_BYTES
    requires w.astNodes + |t.sources[path].nodes.value| <= MAX_AST_NODES
    ensures Sound(t, roots, Visited(t, w, path, pending)) && Shrinks(t, w, Visited(t, w, path, pending))
  {
    SumAdd(p => SizeAt(t, p), w.visited, path);
    SumAdd(p => NodesAt(t, p), w.visited, path);
    WalkShrinks(t.sources.Keys, w.visited, path);
  }

  lemma TopEntry(t: Tree, roots: seq<string>, visited: set<string>, rest: Pending, path: string, depth: nat)
    requires Grounded(t) && Walking(t, roots, visited, rest + [(path, depth)])
    ensures Held(t, roots, visited, path, depth) && visited + {path} <= Closure(t, roots)
  {
    var pending := rest + [(path, depth)];
    assert pending[|rest|] == (path, depth);
    VisitedInClosure(t, roots, visited, pending);
  }

  method Expand(t: Tree, modules: map<string, string>, ghost roots: seq<string>, ghost visited: set<string>,
                rest: Pending, path: string, depth: nat, astNodes: nat)
    returns (r: Result<Pending, ImportError>)
    requires t == TreeOf(t.sources, modules) && path !in visited && Parses(t, path) && InternalPath(path)
    requires Walking(t, roots, visited, rest + [(path, depth)]) && Held(t, roots, visited, path, depth)
    requires path in Closure(t, roots)
    requires astNodes <= MAX_AST_NODES
    requires astNodes + NodesAt(t, path) <= Sum(p => NodesAt(t, p), Closure(t, roots))
    ensures r.Err? ==> Explained(t, roots, r.error)
    ensures r.Ok? ==>
      Walking(t, roots, visited + {path}, r.value) && astNodes + |t.sources[path].nodes.value| <= MAX_AST_NODES
  {
    var nodes := t.sources[path].nodes.value;
    r := ScanModule(t, modules, rest, path, nodes, depth + 1, astNodes);
    if r.Ok? {
      ExpandHolds(t, roots, visited, rest, path, depth, r.value);
    } else if !(r.error == AstLimit && astNodes + |nodes| > MAX_AST_NODES) {
      ExpandFails(t, modules, roots, visited, path, depth, r.error);
    }
  }

  lemma ExpandHolds(t: Tree, roots: seq<string>, visited: set<string>, rest: Pending, path: string, depth: nat,
                    after: Pending)
    requires Parses(t, path) && InternalPath(path) && path !in visited
    requires Walking(t, roots, visited, rest + [(path, depth)]) && Held(t, roots, visited, path, depth)
    requires var nodes := t.sources[path].nodes.value;
      ScannedTo(t, path, nodes, |nodes|, depth + 1, rest, after)
    ensures Walking(t, roots, visited + {path}, after)
  {
    var nodes := t.sources[path].nodes.value;
    assert nodes[..|nodes|] == nodes;
    TargetsAreImports(t, path);
    VisitHolds(t, roots, visited, rest, path, depth, TargetsUpTo(t, path, nodes), after);
    VisitCovers(t, roots, visited, rest, path, depth, TargetsUpTo(t, path, nodes), after);
  }

  lemma ExpandFails(t: Tree, modules: map<string, string>, roots: seq<string>, visited: set<string>,
                    path: string, depth: nat, e: ImportError)
    requires t == TreeOf(t.sources, modules) && Parses(t, path) && path !in visited && path in Closure(t, roots)
    requires Held(t, roots, visited, path, depth)
    requires ScanFails(t, path, t.sources[path].nodes.value, depth + 1, e)
    ensures Explained(t, roots, e)
  {
    var nodes := t.sources[path].nodes.value;
    if e == DepthLimit && DeepTarget(t, TargetsUpTo(t, path, nodes), depth + 1) {
      TargetsAreImports(t, path);
      DeepImport(t, roots, visited, path, depth, TargetsUpTo(t, path, nodes));
    } else {
      var i :| 0 <= i < |nodes| && t.fault(path, nodes[i]) == Some(e);
      FaultKind(t, modules, path, nodes[i]);
      assert !Clean(t, path);
    }
  }

  // ---- the whole search -------------------------------------------------

  /** The outcome on one commit's sources, with their own module index. */
  ghost predicate Outcome(sources: map<string, Source>, roots: seq<string>, r: Result<seq<string>, ImportError>) {
    forall modules :: IsIndex(modules, sources.Keys, ModuleName) ==> OutcomeOn(TreeOf(sources, modules), roots, r)
  }

  ghost predicate OutcomeOn(t: Tree, roots: seq<string>, r: Result<seq<string>, ImportError>) {
    match r
    case Ok(listing) => Fits(t, roots) && StrictlySorted(listing) && Elements(listing) == Closure(t, roots)
    case Err(e) => Explained(t, roots, e)
  }

  method PolicyImportClosure(roots: seq<string>, sources: map<string, Source>)
    returns (r: Result<seq<string>, ImportError>)
    ensures Outcome(sources, roots, r) || (r.Err? && r.error in {Ambiguous, BadPath})
    ensures r.Ok? ==> Indexable(sources.Keys, ModuleName)
    ensures r.Err? && r.error in {Ambiguous, BadPath} ==> !Indexable(sources.Keys, ModuleName)
  {
    if |sources| > MAX_INDEXED_PATHS {
      return Err(IndexLimit);
    }
    var index := BuildIndex(sources.Keys);
    if index.Err? {
      return Err(index.error);
    }
    var modules := index.value;
    TreesAreGrounded(sources, modules);
    IndexedIsIndexable(modules, sources.Keys, ModuleName);
    r := WalkClosure(TreeOf(sources, modules), modules, roots);
    forall other | IsIndex(other, sources.Keys, ModuleName)
      ensures OutcomeOn(TreeOf(sources, other), roots, r)
    {
      IndexIsUnique(modules, other, sources.Keys, ModuleName);
    }
    ExplainedKind(TreeOf(sources, modules), roots, r);
  }

  lemma ExplainedKind(t: Tree, roots: seq<string>, r: Result<seq<string>, ImportError>)
    requires OutcomeOn(t, roots, r)
    ensures r.Err? ==> r.error !in {Ambiguous, BadPath}
  {
  }

  lemma SameRoots(t: Tree, a: seq<string>, b: seq<string>)
    requires Elements(a) == Elements(b)
    ensures Closure(t, a) == Closure(t, b)
  {
    forall s: set<string> ensures Closed(t, a, s) <==> Closed(t, b, s) {
      assert forall r :: r in a <==> r in b by {
        forall r ensures r in a <==> r in b {
          assert r in a <==> r in Elements(a);
          assert r in b <==> r in Elements(b);
        }
      }
    }
    forall p ensures Required(t, a, p) <==> Required(t, b, p) {
    }
  }

  /** Two successful searches from the same roots, in any order, list the same files. */
  lemma RootOrderIsIrrelevant(sources: map<string, Source>, modules: map<string, string>,
                              a: seq<string>, b: seq<string>, x: seq<string>, y: seq<string>)
    requires IsIndex(modules, sources.Keys, ModuleName) && Elements(a) == Elements(b)
    requires Outcome(sources, a, Ok(x)) && Outcome(sources, b, Ok(y))
    ensures x == y
  {
    var t := TreeOf(sources, modules);
    assert OutcomeOn(t, a, Ok(x)) && OutcomeOn(t, b, Ok(y));
    SameRoots(t, a, b);
    SortedUnique(x, y);
  }

  /** A closure within every limit and no chain past the depth limit leaves only success. */
  lemma FittingTreesSucceed(t: Tree, roots: seq<string>, r: Result<seq<string>, ImportError>)
    requires OutcomeOn(t, roots, r) && Fits(t, roots) && !TooDeep(t, roots)
    ensures r.Ok?
  {
    if r.Err? {
      ExplainedNeverFits(t, roots, r.error);
    }
  }
}
