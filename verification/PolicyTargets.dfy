/** What an import statement names and what loading a file runs first, as membership in the index. */
module PolicyTargets {
  import opened Wrappers
  import opened Text
  import opened PolicyModules

  // ---- statements -------------------------------------------------------

  /** The index gives `t` for a module of the policy's own. */
  predicate FileOf(modules: map<string, string>, name: string, t: string) {
    name in modules && modules[name] == t
  }

  /** `t` is the file of the base or of one of the imported names below it. */
  predicate FromNames(modules: map<string, string>, base: string, names: seq<string>, t: string) {
    || FileOf(modules, base, t)
    || exists n :: n in names && n != "*" && FileOf(modules, base + "." + n, t)
  }

  lemma ChildIsInternal(base: string, name: string)
    requires InternalModule(base)
    ensures InternalModule(base + "." + name)
  {
    var child := base + "." + name;
    assert base <= child && child[..|base| + 1] == base + ".";
    assert base == "scripts" ==> "scripts." <= child;
    assert base == "entroping" ==> "entroping." <= child;
  }

  lemma {:induction false} ChildrenAre(base: string, names: seq<string>, modules: map<string, string>)
    requires InternalModule(base)
    ensures forall t :: t in Children(base, names, modules) <==>
      exists n :: n in names && n != "*" && FileOf(modules, base + "." + n, t)
  {
    if names != [] {
      ChildIsInternal(base, names[0]);
      ChildrenAre(base, names[1..], modules);
      assert names == [names[0]] + names[1..];
    }
  }

  lemma FoundAre(base: string, names: seq<string>, modules: map<string, string>, found: seq<string>)
    requires InternalModule(base) && found == Sorted(Optional(Resolve(base, modules)) + Children(base, names, modules))
    ensures forall t :: t in found <==> FromNames(modules, base, names, t)
  {
    var all := Optional(Resolve(base, modules)) + Children(base, names, modules);
    ChildrenAre(base, names, modules);
    forall t ensures t in found <==> FromNames(modules, base, names, t) {
      assert t in Elements(found) <==> t in Elements(all);
    }
  }

  /**
   * A from-import of an own package leads to the package's file and to every
   * imported name's file, and fails exactly when there is none of them.
   */
  lemma FromImportTargets(node: Node, path: string, current: string, modules: map<string, string>, base: string)
    requires node.ImportFrom? && FromBase(node.level, node.base, path, current) == Ok(Some(base)) && InternalModule(base)
    ensures forall t :: t in NodeTargets(node, path, current, modules) <==> FromNames(modules, base, node.names, t)
    ensures NodeError(node, path, current, modules) ==
      if exists t :: FromNames(modules, base, node.names, t) then None else Some(Missing)
  {
    var found := Sorted(Optional(Resolve(base, modules)) + Children(base, node.names, modules));
    FoundAre(base, node.names, modules, found);
    assert FromDependencies(node, path, current, modules) == if found == [] then Err(Missing) else Ok(found);
    if found != [] {
      assert FromNames(modules, base, node.names, found[0]);
    }
  }

  /** An `import` leads to the file of each own module it names, and fails exactly when one has no file. */
  lemma ImportStatementTargets(names: seq<string>, path: string, current: string, modules: map<string, string>)
    ensures forall t :: t in NodeTargets(Import(names), path, current, modules) <==>
      exists n :: n in names && InternalModule(n) && FileOf(modules, n, t)
    ensures NodeError(Import(names), path, current, modules) ==
      if exists n :: n in names && InternalModule(n) && n !in modules then Some(Missing) else None
  {
    forall t ensures t in ImportTargets(names, modules) <==>
      exists n :: n in names && InternalModule(n) && FileOf(modules, n, t)
    {
      if n :| n in names && InternalModule(n) && FileOf(modules, n, t) {
        assert Resolve(n, modules) == Some(t);
      }
    }
    assert forall n :: n in names ==> (Unresolved(n, modules) <==> InternalModule(n) && n !in modules);
  }

  /** Everything else leads nowhere; only dots that leave the package are an error. */
  lemma OtherStatements(node: Node, path: string, current: string, modules: map<string, string>)
    requires node.ImportFrom? ==>
      var base := FromBase(node.level, node.base, path, current);
      base.Err? || base.value.None? || !InternalModule(base.value.value)
    requires !node.Import?
    ensures NodeTargets(node, path, current, modules) == []
    ensures NodeError(node, path, current, modules) ==
      if node.ImportFrom? && FromBase(node.level, node.base, path, current).Err? then Some(Invalid) else None
  {
  }

  // ---- initialisers -----------------------------------------------------

  function Package(dirs: seq<string>, k: nat): string
    requires k <= |dirs|
  {
    PosixText(dirs[..k] + ["__init__.py"])
  }

  /** The directories of a path. */
  function Directories(path: string): seq<string> {
    var parts := PathParts(path);
    if parts == [] then [] else parts[..|parts| - 1]
  }

  /** The outermost directory whose initialiser counts: `scripts`, or the one below `src`. */
  function Outermost(dirs: seq<string>): nat {
    if dirs != [] && dirs[0] == "scripts" then 1 else 2
  }

  predicate PackageFrom(dirs: seq<string>, index: nat, x: string) {
    exists k :: index <= k <= |dirs| && x == Package(dirs, k)
  }

  predicate OwnInitializer(path: string, paths: set<string>, x: string) {
    var dirs := Directories(path);
    x in paths && x != path && PackageFrom(dirs, Outermost(dirs), x)
  }

  lemma {:induction false} InitializersAre(dirs: seq<string>, index: nat, path: string, paths: set<string>)
    ensures forall x :: x in Initializers(dirs, index, path, paths) <==>
      x in paths && x != path && PackageFrom(dirs, index, x)
    decreases |dirs| + 1 - index
  {
    if index <= |dirs| {
      InitializersAre(dirs, index + 1, path, paths);
      forall x ensures PackageFrom(dirs, index, x) <==> x == Package(dirs, index) || PackageFrom(dirs, index + 1, x) {
      }
    }
  }

  lemma {:induction false} LongerJoin(a: seq<string>, b: string, x: string)
    ensures |Join(a + [x], '/')| < |Join(a + [b] + [x], '/')|
  {
    if a == [] {
      assert a + [x] == [x] && a + [b] + [x] == [b, x];
      assert [b, x][1..] == [x];
    } else {
      assert (a + [x])[1..] == a[1..] + [x];
      assert (a + [b] + [x])[1..] == a[1..] + [b] + [x];
      LongerJoin(a[1..], b, x);
    }
  }

  lemma LongerPackage(dirs: seq<string>, k: nat)
    requires 1 <= k < |dirs|
    ensures |Package(dirs, k)| < |Package(dirs, k + 1)|
  {
    var i := "__init__.py";
    var a, b := dirs[..k], dirs[k];
    assert dirs[..k + 1] == a + [b];
    LongerJoin(a, b, i);
    LongerJoin(a[1..], b, i);
    assert (a + [i])[1..] == a[1..] + [i] && (a + [b] + [i])[1..] == a[1..] + [b] + [i];
  }

  lemma {:induction false} LongerPackages(dirs: seq<string>, j: nat, k: nat)
    requires 1 <= j < k <= |dirs|
    ensures |Package(dirs, j)| < |Package(dirs, k)|
    decreases k - j
  {
    LongerPackage(dirs, k - 1);
    if j < k - 1 {
      LongerPackages(dirs, j, k - 1);
    }
  }

  /** Each is longer than all before it. */
  predicate Lengthening(s: seq<string>) {
    forall i, j :: 0 <= i < j < |s| ==> |s[i]| < |s[j]|
  }

  lemma LengtheningFront(first: string, rest: seq<string>)
    requires Lengthening(rest) && forall j :: 0 <= j < |rest| ==> |first| < |rest[j]|
    ensures Lengthening([first] + rest)
  {
    var all := [first] + rest;
    forall i, j | 0 <= i < j < |all| ensures |all[i]| < |all[j]| {
      assert all[j] == rest[j - 1];
      if i > 0 {
        assert all[i] == rest[i - 1];
      }
    }
  }

  lemma {:induction false} InitializersInOrder(dirs: seq<string>, index: nat, path: string, paths: set<string>)
    requires 1 <= index
    ensures Lengthening(Initializers(dirs, index, path, paths))
    decreases |dirs| + 1 - index
  {
    if index <= |dirs| {
      var rest := Initializers(dirs, index + 1, path, paths);
      InitializersInOrder(dirs, index + 1, path, paths);
      InitializersAre(dirs, index + 1, path, paths);
      forall j | 0 <= j < |rest| ensures |Package(dirs, index)| < |rest[j]| {
        assert rest[j] in rest;
        var k :| index + 1 <= k <= |dirs| && rest[j] == Package(dirs, k);
        LongerPackages(dirs, index, k);
      }
      var first := Package(dirs, index);
      LengtheningFront(first, rest);
      assert [] + rest == rest;
      assert Initializers(dirs, index, path, paths) == (if first in paths && first != path then [first] else []) + rest;
    }
  }

  /**
   * Loading a file runs exactly the indexed initialisers of its own packages,
   * each once, outermost first, and then the file.
   */
  lemma ExecutionIsOwnPackages(path: string, paths: set<string>)
    ensures var run := Execution(path, paths);
      && run[|run| - 1] == path
      && (forall x :: x in run[..|run| - 1] <==> OwnInitializer(path, paths, x))
      && Lengthening(run[..|run| - 1])
  {
    var run, dirs := Execution(path, paths), Directories(path);
    assert ["scripts"] <= dirs <==> dirs != [] && dirs[0] == "scripts";
    var own := Initializers(dirs, Outermost(dirs), path, paths);
    assert run == own + [path] && run[..|run| - 1] == own;
    InitializersAre(dirs, Outermost(dirs), path, paths);
    InitializersInOrder(dirs, Outermost(dirs), path, paths);
  }

  // ---- module names -----------------------------------------------------

  predicate Plain(part: string) {
    part != "" && part != "." && '/' !in part
  }

  lemma {:induction false} SplitAtSlash(a: string, b: string)
    requires '/' !in a
    ensures Split(a + "/" + b, '/') == [a] + Split(b, '/')
  {
    if a == "" {
      assert (a + "/" + b)[1..] == b;
    } else {
      assert (a + "/" + b)[1..] == a[1..] + "/" + b;
      SplitAtSlash(a[1..], b);
      assert a == [a[0]] + a[1..];
    }
  }

  lemma {:induction false} UnslashedSplit(s: string)
    requires '/' !in s
    ensures Split(s, '/') == [s]
  {
    if s != "" {
      UnslashedSplit(s[1..]);
      assert s == [s[0]] + s[1..];
    }
  }

  lemma {:induction false} SplitJoined(parts: seq<string>)
    requires parts != [] && forall i :: 0 <= i < |parts| ==> Plain(parts[i])
    ensures Split(Join(parts, '/'), '/') == parts && Named(parts) == parts
    ensures Join(parts, '/') != "" && Join(parts, '/')[0] != '/'
  {
    assert Plain(parts[0]);
    if |parts| == 1 {
      UnslashedSplit(parts[0]);
      assert Named(parts[1..]) == [];
    } else {
      SplitJoined(parts[1..]);
      SplitAtSlash(parts[0], Join(parts[1..], '/'));
    }
  }

  /** A plain path is its own parts. */
  lemma PlainParts(parts: seq<string>)
    requires parts != [] && forall i :: 0 <= i < |parts| ==> Plain(parts[i])
    ensures PathParts(Join(parts, '/')) == parts
  {
    SplitJoined(parts);
    var s := Join(parts, '/');
    assert !StartsWith(s, "/") && !StartsWith(s, "//");
    assert [] + parts == parts;
  }

  /** Where a file's dotted name begins: behind `src` for the package, at the front otherwise. */
  function Prefixed(dirs: seq<string>): seq<string> {
    if |dirs| >= 2 && dirs[0] == "src" && dirs[1] == "entroping" then dirs[1..] else dirs
  }

  lemma PrefixedFile(dirs: seq<string>, file: string, src: string, entroping: string)
    requires dirs != [] && src == "src" && entroping == "entroping" && file != entroping
    ensures var parts, own := dirs + [file], Prefixed(dirs) + [file];
      && (if [src, entroping] <= parts then parts[1..] else parts) == own
      && own != [] && own[|own| - 1] == file && own[..|own| - 1] == Prefixed(dirs)
  {
    var parts := dirs + [file];
    if |dirs| >= 2 {
      assert parts[1..] == dirs[1..] + [file];
      assert parts[0] == dirs[0] && parts[1] == dirs[1];
    } else {
      assert parts[1] == file;
    }
  }

  lemma OwnParts(dirs: seq<string>, file: string)
    requires dirs != [] && forall i :: 0 <= i < |dirs| ==> Plain(dirs[i])
    requires Plain(file) && file != "entroping"
    ensures var parts, own := PathParts(Join(dirs + [file], '/')), Prefixed(dirs) + [file];
      (if ["src", "entroping"] <= parts then parts[1..] else parts) == own
      && own[|own| - 1] == file && own[..|own| - 1] == Prefixed(dirs)
  {
    PlainParts(dirs + [file]);
    PrefixedFile(dirs, file, "src", "entroping");
  }

  /** An initialiser is its package. */
  lemma PackageNamesAre(dirs: seq<string>, file: string)
    requires dirs != [] && (forall i :: 0 <= i < |dirs| ==> Plain(dirs[i])) && file == "__init__.py"
    ensures ModuleName(Join(dirs + [file], '/')) == Some(Join(Prefixed(dirs), '.'))
  {
    InitIsPlain(file, "entroping");
    OwnParts(dirs, file);
  }

  lemma InitIsPlain(file: string, other: string)
    requires file == "__init__.py" && other == "entroping"
    ensures Plain(file) && file != other
  {
    assert |file| == 11 && |other| == 9;
  }

  /** Any other file is a child of its package, named without its suffix. */
  lemma ModuleNamesAre(dirs: seq<string>, stem: string, suffix: string, file: string)
    requires dirs != [] && forall i :: 0 <= i < |dirs| ==> Plain(dirs[i])
    requires '/' !in stem && suffix == ".py" && file == stem + suffix && file != "__init__.py"
    ensures ModuleName(Join(dirs + [file], '/')) == Some(Join(Prefixed(dirs) + [stem], '.'))
  {
    Suffixed(stem, suffix, file);
    OwnParts(dirs, file);
  }

  lemma Suffixed(stem: string, suffix: string, file: string)
    requires '/' !in stem && |suffix| == 3 && suffix[0] == '.' && suffix[1] == 'p' && suffix[2] == 'y'
    requires file == stem + suffix
    ensures EndsWith(file, suffix) && file[..|file| - 3] == stem && file[|file| - 1] == 'y'
    ensures |file| >= 3 && '/' !in file
  {
  }

  // ---- own files and own modules ----------------------------------------

  lemma {:induction false} FirstPiece(name: string, word: string)
    requires '.' !in word
    ensures Split(name, '.')[0] == word <==> name == word || word + "." <= name
    decreases |name|
  {
    if name != "" {
      var rest := Split(name[1..], '.');
      if name[0] == '.' {
        assert Split(name, '.')[0] == "";
        assert word == "" ==> word + "." == name[..1];
      } else if word != "" {
        FirstPiece(name[1..], word[1..]);
        assert Split(name, '.')[0] == [name[0]] + rest[0];
        assert word == [word[0]] + word[1..] && name == [name[0]] + name[1..];
        assert word + "." == [word[0]] + (word[1..] + ".");
      } else {
        assert word + "." == ".";
      }
    }
  }

  /** A module is the policy's own exactly when its first component is one of the two packages. */
  lemma OwnModules(name: string)
    ensures InternalModule(name) <==> Split(name, '.')[0] == "scripts" || Split(name, '.')[0] == "entroping"
  {
    FirstPiece(name, "scripts");
    FirstPiece(name, "entroping");
  }

  /** Up to its first slash a text is one word. */
  lemma FirstSlash(a: string, b: string, word: string, more: string)
    requires '/' !in a && '/' !in word
    ensures word + "/" + more <= a + "/" + b <==> a == word && more <= b
  {
    var whole := a + "/" + b;
    if word + "/" + more <= whole {
      var k := |word| + 1;
      assert whole == word + "/" + whole[k..];
      SplitAtSlash(a, b);
      SplitAtSlash(word, whole[k..]);
      assert ([a] + Split(b, '/'))[0] == a && ([word] + Split(whole[k..], '/'))[0] == word;
      assert whole[k..] == b;
      assert more == (word + "/" + more)[k..] == whole[..k + |more|][k..];
    }
  }

  lemma JoinFront(dirs: seq<string>, file: string)
    requires dirs != []
    ensures Join(dirs + [file], '/') == dirs[0] + "/" + Join(dirs[1..] + [file], '/')
  {
    assert (dirs + [file])[1..] == dirs[1..] + [file];
  }

  lemma BelowOne(dirs: seq<string>, file: string, word: string)
    requires dirs != [] && '/' !in dirs[0] && '/' !in word
    ensures word + "/" <= Join(dirs + [file], '/') <==> dirs[0] == word
  {
    JoinFront(dirs, file);
    FirstSlash(dirs[0], Join(dirs[1..] + [file], '/'), word, "");
    assert word + "/" + "" == word + "/";
  }

  lemma BelowTwo(dirs: seq<string>, file: string, first: string, second: string)
    requires dirs != [] && (forall i :: 0 <= i < |dirs| ==> Plain(dirs[i])) && Plain(file)
    requires '/' !in first && '/' !in second
    ensures first + "/" + (second + "/") <= Join(dirs + [file], '/') <==>
      |dirs| >= 2 && dirs[0] == first && dirs[1] == second
  {
    JoinFront(dirs, file);
    FirstSlash(dirs[0], Join(dirs[1..] + [file], '/'), first, second + "/");
    if |dirs| >= 2 {
      BelowOne(dirs[1..], file, second);
    } else {
      assert dirs[1..] + [file] == [file];
      assert (second + "/")[|second|] == '/';
    }
  }

  lemma Roots(scripts: string, src: string, entroping: string)
    requires scripts == "scripts" && src == "src" && entroping == "entroping"
    ensures "scripts/" == scripts + "/" && "src/entroping/" == src + "/" + (entroping + "/")
    ensures '/' !in scripts && '/' !in src && '/' !in entroping
  {
  }

  /** A plain path is the policy's own exactly when it lies below one of the two directories. */
  lemma OwnFiles(dirs: seq<string>, file: string, scripts: string, src: string, entroping: string)
    requires dirs != [] && (forall i :: 0 <= i < |dirs| ==> Plain(dirs[i])) && Plain(file)
    requires scripts == "scripts" && src == "src" && entroping == "entroping"
    ensures InternalPath(Join(dirs + [file], '/')) <==>
      dirs[0] == scripts || (|dirs| >= 2 && dirs[0] == src && dirs[1] == entroping)
  {
    Roots(scripts, src, entroping);
    BelowOne(dirs, file, scripts);
    BelowTwo(dirs, file, src, entroping);
  }
}
