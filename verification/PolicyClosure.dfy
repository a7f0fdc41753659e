/**
 * The worklist search for a policy's internal import closure.
 *
 * On success the result is the least set of files that holds the roots with
 * their package initialisers and is closed under import, whatever order the
 * worklist took; a failure names a limit or defect of that same set.
 */
module PolicyClosure {
  import opened Wrappers
  import opened Text
  import opened PolicyModules

  /** The sources of one commit with what importing a file runs and what its statements name. */
  datatype Tree = Tree(
    sources: map<string, Source>,
    run: string -> seq<string>,
    targets: (string, Node) -> seq<string>,
    fault: (string, Node) -> Option<ImportError>)

  function Current(path: string): string {
    var name := ModuleName(path);
    if name.Some? then name.value else ""
  }

  function TreeOf(sources: map<string, Source>, modules: map<string, string>): Tree {
    Tree(sources,
         path => Execution(path, sources.Keys),
         (path, node) => NodeTargets(node, path, Current(path), modules),
         (path, node) => NodeError(node, path, Current(path), modules))
  }

  // ---- imports as a graph -----------------------------------------------

  predicate Parses(t: Tree, path: string) {
    path in t.sources && t.sources[path].nodes.Some?
  }

  /** `path` imports `target` directly. */
  ghost predicate Imports(t: Tree, path: string, target: string) {
    && Parses(t, path)
    && exists i ::
         0 <= i < |t.sources[path].nodes.value| && target in t.targets(path, t.sources[path].nodes.value[i])
  }

  /** Loading every file of `s` runs only files of `s`. */
  ghost predicate Closed(t: Tree, roots: seq<string>, s: set<string>) {
    && (forall r :: r in roots ==> Elements(t.run(r)) <= s)
    && (forall x, y :: x in s && Imports(t, x, y) ==> Elements(t.run(y)) <= s)
  }

  ghost predicate Required(t: Tree, roots: seq<string>, path: string) {
    forall s: set<string> :: Closed(t, roots, s) ==> path in s
  }

  /** The import closure: what every closed set must hold. */
  ghost function Closure(t: Tree, roots: seq<string>): set<string> {
    set p | p in t.sources.Keys + Elements(roots) && Required(t, roots, p)
  }

  /** Running a file and its imports never leaves the indexed files. */
  ghost predicate Grounded(t: Tree) {
    && (forall p :: Elements(t.run(p)) <= t.sources.Keys + {p})
    && (forall x, y :: Imports(t, x, y) ==> y in t.sources)
  }

  lemma TreesAreGrounded(sources: map<string, Source>, modules: map<string, string>)
    requires IsIndex(modules, sources.Keys, ModuleName)
    ensures Grounded(TreeOf(sources, modules))
  {
    var t := TreeOf(sources, modules);
    forall p ensures Elements(t.run(p)) <= t.sources.Keys + {p} {
      ExecutionIndexed(p, sources.Keys);
    }
    forall x, y | Imports(t, x, y) ensures y in sources {
      var i :| 0 <= i < |sources[x].nodes.value| && y in t.targets(x, sources[x].nodes.value[i]);
      var node := sources[x].nodes.value[i];
      TargetsIndexed(node, x, Current(x), modules);
      assert y in Elements(NodeTargets(node, x, Current(x), modules));
      var m :| m in modules && modules[m] == y;
    }
  }

  lemma EverythingIsClosed(t: Tree, roots: seq<string>)
    requires Grounded(t)
    ensures Closed(t, roots, t.sources.Keys + Elements(roots))
  {
    var all := t.sources.Keys + Elements(roots);
    forall r | r in roots ensures Elements(t.run(r)) <= all {
      assert r in Elements(roots);
    }
    forall x, y | x in all && Imports(t, x, y) ensures Elements(t.run(y)) <= all {
    }
  }

  /** The closure is itself closed, and is the least closed set. */
  lemma ClosureIsLeast(t: Tree, roots: seq<string>)
    requires Grounded(t)
    ensures Closed(t, roots, Closure(t, roots))
    ensures forall s: set<string> :: Closed(t, roots, s) ==> Closure(t, roots) <= s
    ensures forall p :: p in Closure(t, roots) <==> Required(t, roots, p)
  {
    EverythingIsClosed(t, roots);
    var c := Closure(t, roots);
    forall r | r in roots ensures Elements(t.run(r)) <= c {
      forall p | p in Elements(t.run(r)) ensures Required(t, roots, p) {
      }
    }
    forall x, y | x in c && Imports(t, x, y) ensures Elements(t.run(y)) <= c {
      forall p | p in Elements(t.run(y)) ensures Required(t, roots, p) {
      }
    }
  }

  // ---- totals over a set of files ---------------------------------------

  function SizeAt(t: Tree, path: string): nat {
    if path in t.sources then t.sources[path].size else 0
  }

  function NodesAt(t: Tree, path: string): nat {
    if Parses(t, path) then |t.sources[path].nodes.value| else 0
  }

  /** The sum of a weight over a set, in any order. */
  ghost function Sum(weight: string -> nat, s: set<string>): nat
    decreases |s|
  {
    if s == {} then 0
    else
      var x :| x in s;
      weight(x) + Sum(weight, s - {x})
  }

  lemma {:induction false} SumAdd(weight: string -> nat, s: set<string>, x: string)
    requires x !in s
    ensures Sum(weight, s + {x}) == Sum(weight, s) + weight(x)
    decreases |s|
  {
    var all := s + {x};
    var y :| y in all && Sum(weight, all) == weight(y) + Sum(weight, all - {y});
    if y == x {
      assert all - {x} == s;
    } else {
      assert all - {y} == (s - {y}) + {x};
      SumAdd(weight, s - {y}, x);
      SumAdd(weight, s - {y}, y);
      assert (s - {y}) + {y} == s;
    }
  }

  lemma {:induction false} SumMonotone(weight: string -> nat, a: set<string>, b: set<string>)
    requires a <= b
    ensures Sum(weight, a) <= Sum(weight, b)
    decreases |b|
  {
    if a != b {
      var x :| x in b && x !in a;
      assert (b - {x}) + {x} == b;
      SumAdd(weight, b - {x}, x);
      SumMonotone(weight, a, b - {x});
    }
  }

  lemma {:induction false} SizeMonotone(a: set<string>, b: set<string>)
    requires a <= b
    ensures |a| <= |b|
    decreases |a|
  {
    if a != {} {
      var x :| x in a;
      SizeMonotone(a - {x}, b - {x});
    }
  }

  // ---- import depth -----------------------------------------------------

  /** The modules of `trail`, each loaded once and in turn, put `path` on the worklist at depth `d`. */
  ghost predicate Offered(t: Tree, roots: seq<string>, trail: seq<string>, path: string, d: nat)
    decreases |trail|, 1
  {
    if trail == [] then exists r :: r in roots && At(t, r, 0, path, d)
    else exists e: nat :: Chain(t, roots, trail, e) && Steps(t, trail[|trail| - 1], e, path, d)
  }

  /** Loading `importer` at depth `e` runs `path` at depth `d`. */
  ghost predicate Steps(t: Tree, importer: string, e: nat, path: string, d: nat) {
    exists y :: Imports(t, importer, y) && At(t, y, e + 1, path, d)
  }

  /** `path` runs `d - depth` places after the first initialiser of `target`. */
  ghost predicate At(t: Tree, target: string, depth: nat, path: string, d: nat) {
    depth <= d < depth + |t.run(target)| && t.run(target)[d - depth] == path
  }

  /** A repetition-free import chain from a root whose last module is loaded at depth `d`. */
  ghost predicate Chain(t: Tree, roots: seq<string>, trail: seq<string>, d: nat)
    decreases |trail|, 0
  {
    && trail != [] && trail[|trail| - 1] !in trail[..|trail| - 1]
    && Offered(t, roots, trail[..|trail| - 1], trail[|trail| - 1], d)
  }

  lemma OfferedBy(t: Tree, roots: seq<string>, trail: seq<string>, path: string, d: nat) returns (e: nat)
    requires trail != [] && Offered(t, roots, trail, path, d)
    ensures Chain(t, roots, trail, e) && Steps(t, trail[|trail| - 1], e, path, d)
  {
    e :| Chain(t, roots, trail, e) && Steps(t, trail[|trail| - 1], e, path, d);
  }

  /** Some root or chain runs past the depth limit. */
  ghost predicate TooDeep(t: Tree, roots: seq<string>) {
    || (exists r :: r in roots && |t.run(r)| - 1 > MAX_IMPORT_DEPTH)
    || (exists trail, d: nat, y ::
          Chain(t, roots, trail, d) && Imports(t, trail[|trail| - 1], y) && d + |t.run(y)| > MAX_IMPORT_DEPTH)
  }

  // ---- success and failure ----------------------------------------------

  /** A file the walk can load: indexed, internal, parsed, and every import resolved. */
  ghost predicate Clean(t: Tree, path: string) {
    && Parses(t, path) && InternalPath(path)
    && forall i :: 0 <= i < |t.sources[path].nodes.value| ==> t.fault(path, t.sources[path].nodes.value[i]).None?
  }

  ghost predicate Fits(t: Tree, roots: seq<string>) {
    && |t.sources| <= MAX_INDEXED_PATHS
    && (forall p :: p in Closure(t, roots) ==> Clean(t, p))
    && |Closure(t, roots)| <= MAX_CLOSURE_MODULES
    && Sum(p => SizeAt(t, p), Closure(t, roots)) <= MAX_SOURCE_BYTES
    && Sum(p => NodesAt(t, p), Closure(t, roots)) <= MAX_AST_NODES
  }

  /** What an error says about the closure, not about the order of the walk. */
  ghost predicate Explained(t: Tree, roots: seq<string>, e: ImportError) {
    match e
    case IndexLimit => |t.sources| > MAX_INDEXED_PATHS
    case DepthLimit => TooDeep(t, roots)
    case ModuleLimit => |Closure(t, roots)| > MAX_CLOSURE_MODULES
    case SourceLimit => Sum(p => SizeAt(t, p), Closure(t, roots)) > MAX_SOURCE_BYTES
    case AstLimit => Sum(p => NodesAt(t, p), Closure(t, roots)) > MAX_AST_NODES
    case Missing => exists p :: p in Closure(t, roots) && !Clean(t, p)
    case Invalid => exists p :: p in Closure(t, roots) && !Clean(t, p)
    case Ambiguous => false
    case BadPath => false
  }

  lemma ExplainedNeverFits(t: Tree, roots: seq<string>, e: ImportError)
    requires Explained(t, roots, e) && Fits(t, roots)
    ensures e.DepthLimit? && TooDeep(t, roots)
  {
  }

  // ---- the worklist -----------------------------------------------------

  type Pending = seq<(string, nat)>

  function Paths(pending: Pending): set<string> {
    set e | e in pending :: e.0
  }

  /** Every new entry is a place in the execution of one of `targets`, within the depth limit. */
  ghost predicate OnlyFrom(t: Tree, targets: seq<string>, depth: nat, extra: Pending) {
    forall e :: e in extra ==> e.1 <= MAX_IMPORT_DEPTH && exists y :: y in targets && At(t, y, depth, e.0, e.1)
  }

  ghost predicate AllOf(t: Tree, targets: seq<string>, extra: Pending) {
    forall y :: y in targets ==> Elements(t.run(y)) <= Paths(extra)
  }

  /** The worklist has grown by exactly what running `targets` from `depth` needs. */
  ghost predicate Grows(t: Tree, targets: seq<string>, depth: nat, before: Pending, after: Pending) {
    before <= after && OnlyFrom(t, targets, depth, after[|before|..]) && AllOf(t, targets, after[|before|..])
  }

  ghost predicate DeepTarget(t: Tree, targets: seq<string>, depth: nat) {
    exists y :: y in targets && depth + |t.run(y)| - 1 > MAX_IMPORT_DEPTH
  }

  /** The stack grows by the whole execution of `path`, first initialiser on top. */
  method EnqueueModule(t: Tree, pending: Pending, path: string, depth: nat)
    returns (r: Result<Pending, ImportError>)
    ensures r.Err? <==> depth + |t.run(path)| - 1 > MAX_IMPORT_DEPTH
    ensures r.Err? ==> r.error == DepthLimit
    ensures r.Ok? ==> Grows(t, [path], depth, pending, r.value)
  {
    var run := t.run(path);
    if depth + |run| - 1 > MAX_IMPORT_DEPTH {
      return Err(DepthLimit);
    }
    var extra: Pending := [];
    var i := |run|;
    while i > 0
      invariant 0 <= i <= |run| && |extra| == |run| - i
      invariant forall j :: 0 <= j < |extra| ==> extra[j] == (run[|run| - 1 - j], depth + |run| - 1 - j)
    {
      i := i - 1;
      extra := extra + [(run[i], depth + i)];
    }
    forall e | e in extra ensures e.1 <= MAX_IMPORT_DEPTH && At(t, path, depth, e.0, e.1) {
    }
    forall x | x in Elements(run) ensures x in Paths(extra) {
      var k :| 0 <= k < |run| && run[k] == x;
      assert extra[|run| - 1 - k] == (x, depth + k);
    }
    assert (pending + extra)[|pending|..] == extra;
    return Ok(pending + extra);
  }

  lemma GrowsOn(t: Tree, a: Pending, b: Pending, c: Pending, targets: seq<string>, more: seq<string>, depth: nat)
    requires Grows(t, targets, depth, a, b) && Grows(t, more, depth, b, c)
    ensures Grows(t, targets + more, depth, a, c)
  {
    var first, second, both := b[|a|..], c[|b|..], c[|a|..];
    assert both == first + second;
    forall y, x | y in targets + more && x in t.run(y) ensures x in Paths(both) {
      assert x in Elements(t.run(y));
      assert x in Paths(first) || x in Paths(second);
    }
    forall e | e in both
      ensures e.1 <= MAX_IMPORT_DEPTH && exists y :: y in targets + more && At(t, y, depth, e.0, e.1)
    {
      assert e in first || e in second;
    }
  }

  lemma GrowsSame(t: Tree, a: Pending, b: Pending, targets: seq<string>, same: seq<string>, depth: nat)
    requires Grows(t, targets, depth, a, b) && forall x :: x in targets <==> x in same
    ensures Grows(t, same, depth, a, b)
  {
    forall e | e in b[|a|..] ensures e.1 <= MAX_IMPORT_DEPTH && exists y :: y in same && At(t, y, depth, e.0, e.1) {
      var y :| y in targets && At(t, y, depth, e.0, e.1);
      assert y in same;
    }
  }

  lemma GrowsFront(t: Tree, a: Pending, b: Pending, c: Pending, x: string, rest: seq<string>, depth: nat)
    requires Grows(t, rest, depth, a, b) && Grows(t, [x], depth, b, c)
    ensures Grows(t, [x] + rest, depth, a, c)
  {
    GrowsOn(t, a, b, c, rest, [x], depth);
    GrowsSame(t, a, c, rest + [x], [x] + rest, depth);
  }

  lemma DeepFront(t: Tree, x: string, rest: seq<string>, depth: nat)
    requires !DeepTarget(t, rest, depth) && depth + |t.run(x)| - 1 <= MAX_IMPORT_DEPTH
    ensures !DeepTarget(t, [x] + rest, depth)
  {
  }

  lemma MoveLast(rest: seq<string>, done: seq<string>)
    requires rest != []
    ensures rest[..|rest| - 1] + ([rest[|rest| - 1]] + done) == rest + done
  {
  }

  /** Enqueue a list of files, last first, so that the first is on top. */
  method EnqueueAll(t: Tree, pending: Pending, targets: seq<string>, depth: nat)
    returns (r: Result<Pending, ImportError>)
    ensures r.Err? ==> r.error == DepthLimit && DeepTarget(t, targets, depth)
    ensures r.Ok? ==> !DeepTarget(t, targets, depth) && Grows(t, targets, depth, pending, r.value)
  {
    var out := pending;
    var rest := targets;
    ghost var done: seq<string> := [];
    while rest != []
      invariant targets == rest + done
      invariant Grows(t, done, depth, pending, out) && !DeepTarget(t, done, depth)
      decreases |rest|
    {
      var last := rest[|rest| - 1];
      var next := EnqueueModule(t, out, last, depth);
      if next.Err? {
        assert last in targets;
        return next;
      }
      GrowsFront(t, pending, out, next.value, last, done, depth);
      DeepFront(t, last, done, depth);
      MoveLast(rest, done);
      out := next.value;
      rest := rest[..|rest| - 1];
      done := [last] + done;
    }
    assert targets == done;
    return Ok(out);
  }

  // ---- scanning one module ----------------------------------------------

  function TargetsUpTo(t: Tree, path: string, nodes: seq<Node>): seq<string> {
    if nodes == [] then []
    else TargetsUpTo(t, path, nodes[..|nodes| - 1]) + t.targets(path, nodes[|nodes| - 1])
  }

  lemma {:induction false} TargetsUpToIs(t: Tree, path: string, nodes: seq<Node>)
    ensures forall y :: y in TargetsUpTo(t, path, nodes) <==>
      exists i :: 0 <= i < |nodes| && y in t.targets(path, nodes[i])
  {
    if nodes != [] {
      var n := |nodes| - 1;
      TargetsUpToIs(t, path, nodes[..n]);
      forall y | y in TargetsUpTo(t, path, nodes) ensures exists i :: 0 <= i < |nodes| && y in t.targets(path, nodes[i]) {
        if y in TargetsUpTo(t, path, nodes[..n]) {
          var i :| 0 <= i < n && y in t.targets(path, nodes[..n][i]);
          assert y in t.targets(path, nodes[i]);
        }
      }
      forall i, y | 0 <= i < |nodes| && y in t.targets(path, nodes[i]) ensures y in TargetsUpTo(t, path, nodes) {
        if i < n {
          assert y in t.targets(path, nodes[..n][i]);
        }
      }
    }
  }

  predicate AllResolved(names: seq<string>, modules: map<string, string>) {
    forall n :: n in names ==> !Unresolved(n, modules)
  }

  lemma NextName(names: seq<string>, modules: map<string, string>, done: seq<string>)
    requires names != []
    ensures AllResolved(names, modules) <==> !Unresolved(names[0], modules) && AllResolved(names[1..], modules)
    ensures done + ImportTargets(names, modules)
      == done + Optional(Resolve(names[0], modules)) + ImportTargets(names[1..], modules)
  {
    assert names == [names[0]] + names[1..];
  }

  lemma DeepAmong(t: Tree, targets: seq<string>, x: string, depth: nat)
    requires x in targets && depth + |t.run(x)| - 1 > MAX_IMPORT_DEPTH
    ensures DeepTarget(t, targets, depth)
  {
  }

  /** The `import` statement: each name in turn, stopping at one that is internal but missing. */
  method ScanImport(t: Tree, modules: map<string, string>, pending: Pending, names: seq<string>, depth: nat)
    returns (r: Result<Pending, ImportError>)
    ensures r.Ok? ==>
      AllResolved(names, modules) && Grows(t, ImportTargets(names, modules), depth, pending, r.value)
    ensures r.Err? ==>
      || (r.error == Missing && !AllResolved(names, modules))
      || (r.error == DepthLimit && DeepTarget(t, ImportTargets(names, modules), depth))
  {
    var out := pending;
    var rest := names;
    ghost var done: seq<string> := [];
    while rest != []
      invariant ImportTargets(names, modules) == done + ImportTargets(rest, modules)
      invariant Grows(t, done, depth, pending, out)
      invariant AllResolved(names, modules) <==> AllResolved(rest, modules)
      decreases |rest|
    {
      NextName(rest, modules, done);
      var target := Resolve(rest[0], modules);
      if target.None? && InternalModule(rest[0]) {
        return Err(Missing);
      }
      if target.Some? {
        var next := EnqueueModule(t, out, target.value, depth);
        if next.Err? {
          assert target.value in (done + Optional(target)) + ImportTargets(rest[1..], modules);
          DeepAmong(t, ImportTargets(names, modules), target.value, depth);
          return next;
        }
        GrowsOn(t, pending, out, next.value, done, [target.value], depth);
        out := next.value;
        done := done + [target.value];
      }
      rest := rest[1..];
    }
    assert done == ImportTargets(names, modules);
    return Ok(out);
  }

  lemma TreeNode(t: Tree, modules: map<string, string>, path: string, node: Node)
    requires t == TreeOf(t.sources, modules)
    ensures t.targets(path, node) == NodeTargets(node, path, Current(path), modules)
    ensures t.fault(path, node) == NodeError(node, path, Current(path), modules)
  {
  }

  lemma FaultKind(t: Tree, modules: map<string, string>, path: string, node: Node)
    requires t == TreeOf(t.sources, modules)
    ensures t.fault(path, node) in {None, Some(Missing), Some(Invalid)}
  {
    TreeNode(t, modules, path, node);
    NodeErrorKind(node, path, Current(path), modules);
  }

  lemma ImportNode(names: seq<string>, path: string, current: string, modules: map<string, string>)
    ensures NodeTargets(Import(names), path, current, modules) == ImportTargets(names, modules)
    ensures NodeError(Import(names), path, current, modules)
      == if AllResolved(names, modules) then None else Some(Missing)
  {
  }

  method ScanNode(t: Tree, modules: map<string, string>, pending: Pending, path: string, node: Node, depth: nat)
    returns (r: Result<Pending, ImportError>)
    requires t == TreeOf(t.sources, modules)
    ensures r.Ok? ==> t.fault(path, node).None? && Grows(t, t.targets(path, node), depth, pending, r.value)
    ensures r.Err? ==>
      || t.fault(path, node) == Some(r.error)
      || (r.error == DepthLimit && DeepTarget(t, t.targets(path, node), depth))
  {
    TreeNode(t, modules, path, node);
    match node {
      case Import(names) =>
        ImportNode(names, path, Current(path), modules);
        r := ScanImport(t, modules, pending, names, depth);
      case ImportFrom(_, _, _) =>
        r := ScanFrom(t, modules, pending, path, Current(path), node, depth);
      case Other =>
        r := Ok(pending);
    }
  }

  method ScanFrom(t: Tree, modules: map<string, string>, pending: Pending, path: string, current: string,
                  node: Node, depth: nat)
    returns (r: Result<Pending, ImportError>)
    requires node.ImportFrom?
    ensures r.Ok? ==>
      NodeError(node, path, current, modules).None?
      && Grows(t, NodeTargets(node, path, current, modules), depth, pending, r.value)
    ensures r.Err? ==>
      || NodeError(node, path, current, modules) == Some(r.error)
      || (r.error == DepthLimit && DeepTarget(t, NodeTargets(node, path, current, modules), depth))
  {
    var found := FromDependencies(node, path, current, modules);
    if found.Err? {
      return Err(found.error);
    }
    r := EnqueueAll(t, pending, found.value, depth);
  }
}
