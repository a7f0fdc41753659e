/** Paths, module names and import statements of the delivery policy's own sources. */
module PolicyModules {
  import opened Wrappers
  import opened Text

  const MAX_INDEXED_PATHS := 1_024
  const MAX_CLOSURE_MODULES := 256
  const MAX_SOURCE_BYTES := 1_048_576
  const MAX_AST_NODES := 100_000
  const MAX_IMPORT_DEPTH := 32

  datatype ImportError =
    | IndexLimit | Ambiguous | BadPath | DepthLimit | Missing | ModuleLimit | SourceLimit | AstLimit | Invalid

  /** A node of a parsed module; every node but the two import forms is `Other`. */
  datatype Node =
    | Import(names: seq<string>)
    | ImportFrom(level: nat, base: Option<string>, names: seq<string>)
    | Other

  /** A file's size and its nodes in walk order, or None when it does not parse. */
  datatype Source = Source(size: nat, nodes: Option<seq<Node>>)

  // ---- paths ------------------------------------------------------------

  predicate InternalPath(path: string) {
    StartsWith(path, "scripts/") || StartsWith(path, "src/entroping/")
  }

  predicate InternalModule(name: string) {
    name == "scripts" || StartsWith(name, "scripts.") || name == "entroping" || StartsWith(name, "entroping.")
  }

  function Named(pieces: seq<string>): seq<string> {
    if pieces == [] then []
    else (if pieces[0] in {"", "."} then [] else [pieces[0]]) + Named(pieces[1..])
  }

  /** `PurePosixPath(path).parts`: empty and `.` components go, a leading slash is a part. */
  function PathParts(path: string): seq<string> {
    (if StartsWith(path, "//") && !StartsWith(path, "///") then ["//"]
     else if StartsWith(path, "/") then ["/"]
     else [])
    + Named(Split(path, '/'))
  }

  function PosixText(parts: seq<string>): string {
    if parts != [] && parts[0] in {"/", "//"} then parts[0] + Join(parts[1..], '/') else Join(parts, '/')
  }

  /** A path without components has no last part to look at. */
  function ModuleName(path: string): Option<string> {
    var parts := PathParts(path);
    var own := if ["src", "entroping"] <= parts then parts[1..] else parts;
    if own == [] then None
    else
      var last := own[|own| - 1];
      var front := own[..|own| - 1];
      if last == "__init__.py" then Some(Join(front, '.'))
      else Some(Join(front + [if EndsWith(last, ".py") then last[..|last| - 3] else last], '.'))
  }

  function Initializers(parts: seq<string>, index: nat, path: string, paths: set<string>): seq<string>
    decreases |parts| + 1 - index
  {
    if index > |parts| then []
    else
      var candidate := PosixText(parts[..index] + ["__init__.py"]);
      (if candidate in paths && candidate != path then [candidate] else [])
      + Initializers(parts, index + 1, path, paths)
  }

  /** The package initialisers that run before `path`, outermost first. */
  function ParentInitializers(path: string, paths: set<string>): seq<string> {
    var all := PathParts(path);
    var parts := if all == [] then [] else all[..|all| - 1];
    Initializers(parts, if ["scripts"] <= parts then 1 else 2, path, paths)
  }

  /** What importing `path` executes, in order. */
  function Execution(path: string, paths: set<string>): (r: seq<string>)
    ensures r != [] && r[|r| - 1] == path
  {
    ParentInitializers(path, paths) + [path]
  }

  lemma {:induction false} InitializersIndexed(parts: seq<string>, index: nat, path: string, paths: set<string>)
    ensures Elements(Initializers(parts, index, path, paths)) <= paths
    decreases |parts| + 1 - index
  {
    if index <= |parts| {
      InitializersIndexed(parts, index + 1, path, paths);
    }
  }

  lemma ExecutionIndexed(path: string, paths: set<string>)
    ensures Elements(Execution(path, paths)) <= paths + {path}
  {
    var all := PathParts(path);
    var parts := if all == [] then [] else all[..|all| - 1];
    var start := if ["scripts"] <= parts then 1 else 2;
    InitializersIndexed(parts, start, path, paths);
    forall x | x in Elements(Execution(path, paths)) ensures x in paths + {path} {
      assert x in Elements(Initializers(parts, start, path, paths)) || x == path;
    }
  }

  // ---- the module index -------------------------------------------------

  /** Every path has a module name under `name`, and no two share one. */
  ghost predicate Indexable(paths: set<string>, name: string -> Option<string>) {
    && (forall p :: p in paths ==> name(p).Some?)
    && (forall p, q :: p in paths && q in paths && name(p) == name(q) ==> p == q)
  }

  ghost predicate IsIndex(modules: map<string, string>, paths: set<string>, name: string -> Option<string>) {
    && (forall m :: m in modules ==> modules[m] in paths && name(modules[m]) == Some(m))
    && (forall p :: p in paths ==> name(p).Some? && name(p).value in modules && modules[name(p).value] == p)
  }

  lemma IndexedIsIndexable(modules: map<string, string>, paths: set<string>, name: string -> Option<string>)
    requires IsIndex(modules, paths, name)
    ensures Indexable(paths, name)
  {
  }

  lemma IndexIsUnique(a: map<string, string>, b: map<string, string>, paths: set<string>,
                      name: string -> Option<string>)
    requires IsIndex(a, paths, name) && IsIndex(b, paths, name)
    ensures a == b
  {
    forall m | m in a ensures m in b && a[m] == b[m] {
      assert name(a[m]) == Some(m);
      assert m in b && name(b[m]) == Some(m);
    }
    forall m | m in b ensures m in a {
      assert name(b[m]) == Some(m);
    }
  }

  lemma IndexAdd(done: set<string>, modules: map<string, string>, path: string, name: string -> Option<string>)
    requires IsIndex(modules, done, name)
    requires name(path).Some? && name(path).value !in modules
    ensures IsIndex(modules[name(path).value := path], done + {path}, name)
  {
  }

  lemma IndexClash(done: set<string>, modules: map<string, string>, paths: set<string>, path: string,
                   name: string -> Option<string>)
    requires IsIndex(modules, done, name) && done <= paths && path in paths && path !in done
    requires name(path).None? || name(path).value in modules
    ensures !Indexable(paths, name)
  {
    if name(path).Some? {
      var other := modules[name(path).value];
      assert other in paths && name(other) == name(path);
    }
  }

  /** The index, or the error of whichever path is met first. */
  method BuildIndex(paths: set<string>) returns (r: Result<map<string, string>, ImportError>)
    ensures r.Ok? ==> IsIndex(r.value, paths, ModuleName)
    ensures r.Err? ==> !Indexable(paths, ModuleName) && r.error in {Ambiguous, BadPath}
  {
    r := IndexBy(paths, ModuleName);
  }

  method IndexBy(paths: set<string>, name: string -> Option<string>)
    returns (r: Result<map<string, string>, ImportError>)
    ensures r.Ok? ==> IsIndex(r.value, paths, name)
    ensures r.Err? ==> !Indexable(paths, name) && r.error in {Ambiguous, BadPath}
  {
    var modules: map<string, string> := map[];
    var rest := paths;
    ghost var done: set<string> := {};
    while rest != {}
      invariant done == paths - rest && rest <= paths && IsIndex(modules, done, name)
      decreases rest
    {
      var path :| path in rest;
      if name(path).None? || name(path).value in modules {
        IndexClash(done, modules, paths, path, name);
        return Err(if name(path).None? then BadPath else Ambiguous);
      }
      var key := name(path).value;
      IndexAdd(done, modules, path, name);
      modules := modules[key := path];
      rest := rest - {path};
      done := done + {path};
    }
    return Ok(modules);
  }

  function Resolve(name: string, modules: map<string, string>): Option<string> {
    if InternalModule(name) && name in modules then Some(modules[name]) else None
  }

  // ---- import statements ------------------------------------------------

  /** The absolute module an import-from names, after its leading dots. */
  function FromBase(level: nat, base: Option<string>, path: string, current: string)
    : Result<Option<string>, ImportError>
  {
    if level == 0 then Ok(base)
    else
      var pieces := Split(current, '.');
      var package := if EndsWith(path, "/__init__.py") then pieces else pieces[..|pieces| - 1];
      if level - 1 > |package| then Err(Invalid)
      else
        var front := package[..|package| - (level - 1)];
        Ok(Some(Join(if base.Some? && base.value != "" then front + Split(base.value, '.') else front, '.')))
  }

  // ---- what leading dots mean -------------------------------------------

  predicate Dotless(pieces: seq<string>) {
    forall i :: 0 <= i < |pieces| ==> '.' !in pieces[i]
  }

  lemma {:induction false} UndottedSplit(s: string)
    requires '.' !in s
    ensures Split(s, '.') == [s]
  {
    if s != "" {
      UndottedSplit(s[1..]);
      assert s == [s[0]] + s[1..];
    }
  }

  lemma {:induction false} SplitAtDot(a: string, b: string)
    requires '.' !in a
    ensures Split(a + "." + b, '.') == [a] + Split(b, '.')
  {
    if a == "" {
      assert (a + "." + b)[1..] == b;
    } else {
      assert (a + "." + b)[1..] == a[1..] + "." + b;
      SplitAtDot(a[1..], b);
      assert a == [a[0]] + a[1..];
    }
  }

  lemma {:induction false} SplitJoinDots(pieces: seq<string>)
    requires pieces != [] && Dotless(pieces)
    ensures Split(Join(pieces, '.'), '.') == pieces
  {
    if |pieces| == 1 {
      UndottedSplit(pieces[0]);
    } else {
      SplitJoinDots(pieces[1..]);
      SplitAtDot(pieces[0], Join(pieces[1..], '.'));
    }
  }

  lemma {:induction false} JoinMore(a: seq<string>, b: seq<string>)
    requires a != [] && b != []
    ensures Join(a + b, '.') == Join(a, '.') + "." + Join(b, '.')
  {
    assert (a + b)[1..] == a[1..] + b;
    if |a| > 1 {
      JoinMore(a[1..], b);
    } else {
      assert a + b == [a[0]] + b;
    }
  }

  /** One more leading dot names the parent: the same package without its last component. */
  lemma OneMoreDot(level: nat, path: string, current: string)
    requires level >= 1
    requires var up := FromBase(level + 1, None, path, current); up.Ok? && up.value.value != ""
    ensures FromBase(level, None, path, current).Ok?
    ensures var here, up := FromBase(level, None, path, current), FromBase(level + 1, None, path, current);
      exists last :: '.' !in last && here.value.value == up.value.value + "." + last
  {
    var pieces := Split(current, '.');
    var package := if EndsWith(path, "/__init__.py") then pieces else pieces[..|pieces| - 1];
    var n := |package| - level;
    var last := package[n];
    assert package[..n + 1] == package[..n] + [last];
    assert package[..n] != [];
    JoinMore(package[..n], [last]);
  }

  /** A name behind the dots is a child of the package the dots alone name. */
  lemma NamedBehindDots(level: nat, name: string, path: string, current: string)
    requires level >= 1 && name != ""
    requires var base := FromBase(level, None, path, current); base.Ok? && base.value.value != ""
    ensures FromBase(level, Some(name), path, current)
      == Ok(Some(FromBase(level, None, path, current).value.value + "." + name))
  {
    var pieces := Split(current, '.');
    var package := if EndsWith(path, "/__init__.py") then pieces else pieces[..|pieces| - 1];
    var front := package[..|package| - (level - 1)];
    assert front != [];
    JoinMore(front, Split(name, '.'));
    JoinSplit(name, '.');
  }

  /** One dot names the file's own package: itself for an initialiser, its directory otherwise. */
  lemma OneDot(pieces: seq<string>, stem: string, path: string)
    requires pieces != [] && Dotless(pieces) && '.' !in stem
    ensures EndsWith(path, "/__init__.py") ==>
      FromBase(1, None, path, Join(pieces, '.')) == Ok(Some(Join(pieces, '.')))
    ensures !EndsWith(path, "/__init__.py") ==>
      FromBase(1, None, path, Join(pieces + [stem], '.')) == Ok(Some(Join(pieces, '.')))
  {
    SplitJoinDots(pieces);
    SplitJoinDots(pieces + [stem]);
    assert (pieces + [stem])[..|pieces|] == pieces && pieces[..|pieces|] == pieces;
  }

  function Children(base: string, names: seq<string>, modules: map<string, string>): seq<string> {
    if names == [] then []
    else
      var child := Resolve(base + "." + names[0], modules);
      (if names[0] != "*" && child.Some? then [child.value] else []) + Children(base, names[1..], modules)
  }

  function Optional(path: Option<string>): seq<string> {
    if path.Some? then [path.value] else []
  }

  /** The base module if it is a file, and every imported name that is one. */
  function FromDependencies(node: Node, path: string, current: string, modules: map<string, string>)
    : (r: Result<seq<string>, ImportError>)
    requires node.ImportFrom?
    ensures r.Ok? ==> StrictlySorted(r.value)
  {
    var base := FromBase(node.level, node.base, path, current);
    if base.Err? then Err(base.error)
    else if base.value.None? || !InternalModule(base.value.value) then Ok([])
    else
      var found := Sorted(Optional(Resolve(base.value.value, modules)) + Children(base.value.value, node.names, modules));
      if found == [] then Err(Missing) else Ok(found)
  }

  /** The files an import statement names; an unresolvable internal module is an error. */
  function ImportTargets(names: seq<string>, modules: map<string, string>): (r: seq<string>)
    ensures forall n :: n in names && Resolve(n, modules).Some? ==> Resolve(n, modules).value in r
    ensures forall t :: t in r ==> exists n :: n in names && Resolve(n, modules) == Some(t)
  {
    if names == [] then []
    else
      assert names == [names[0]] + names[1..];
      Optional(Resolve(names[0], modules)) + ImportTargets(names[1..], modules)
  }

  predicate Unresolved(name: string, modules: map<string, string>) {
    InternalModule(name) && Resolve(name, modules).None?
  }

  function NodeTargets(node: Node, path: string, current: string, modules: map<string, string>): seq<string> {
    match node
    case Import(names) => ImportTargets(names, modules)
    case ImportFrom(_, _, _) =>
      var r := FromDependencies(node, path, current, modules);
      if r.Ok? then r.value else []
    case Other => []
  }

  function NodeError(node: Node, path: string, current: string, modules: map<string, string>): Option<ImportError> {
    match node
    case Import(names) => if exists n :: n in names && Unresolved(n, modules) then Some(Missing) else None
    case ImportFrom(_, _, _) =>
      var r := FromDependencies(node, path, current, modules);
      if r.Err? then Some(r.error) else None
    case Other => None
  }

  lemma NodeErrorKind(node: Node, path: string, current: string, modules: map<string, string>)
    ensures NodeError(node, path, current, modules) in {None, Some(Missing), Some(Invalid)}
  {
  }

  lemma {:induction false} ChildrenResolved(base: string, names: seq<string>, modules: map<string, string>)
    ensures forall t :: t in Children(base, names, modules) ==> t in modules.Values
  {
    if names != [] {
      ChildrenResolved(base, names[1..], modules);
    }
  }

  /** Statements only lead to indexed files. */
  lemma TargetsIndexed(node: Node, path: string, current: string, modules: map<string, string>)
    ensures Elements(NodeTargets(node, path, current, modules)) <= modules.Values
  {
    if node.ImportFrom? {
      var base := FromBase(node.level, node.base, path, current);
      if base.Ok? && base.value.Some? {
        ChildrenResolved(base.value.value, node.names, modules);
        var all := Optional(Resolve(base.value.value, modules)) + Children(base.value.value, node.names, modules);
        forall t | t in Elements(Sorted(all)) ensures t in modules.Values {
          assert t in Elements(all);
        }
      }
    }
  }
}
