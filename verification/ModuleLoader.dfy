/**
 The module loader (module_loader.inc): a cache from canonical paths to compiled modules,
 filled while V8 links the import graph of the entry module.
 */
module ModuleLoader {
  import opened Prelude

  type Path = string
  type Specifier = string

  /** A compiled v8::Module, numbered in the order of compilation. */
  type Module = nat

  datatype Source = Source(compiles: bool, imports: seq<Specifier>)

  /**
   The file tree, fixed for a run: what std::filesystem::canonical answers for the names
   that exist, and the text of the files that can be read.
   */
  datatype Files = Files(canonical: map<string, Path>, readable: map<Path, Source>)

  datatype LoadError = NotFound(name: string) | Unreadable(path: Path) | DoesNotCompile(path: Path)

  // ---------------------------------------------------------------- resolution

  function LastSlash(p: Path): (i: int)
    ensures -1 <= i < |p|
    ensures i >= 0 ==> p[i] == '/'
    ensures forall j :: i < j < |p| ==> p[j] != '/'
  {
    if p == [] then -1 else if p[|p| - 1] == '/' then |p| - 1 else LastSlash(p[..|p| - 1])
  }

  function StripSlashes(p: Path): (r: Path)
    ensures r == "" || r[|r| - 1] != '/'
  {
    if p == [] || p[|p| - 1] != '/' then p else StripSlashes(p[..|p| - 1])
  }

  /** path::parent_path: no trailing separator, but for the root. */
  function Parent(p: Path): (r: Path)
    ensures r == "" || r == "/" || r[|r| - 1] != '/'
  {
    var i := LastSlash(p);
    if i < 0 then "" else if StripSlashes(p[..i]) == "" then "/" else StripSlashes(p[..i])
  }

  /** path::operator/ with a relative right-hand side. */
  function Join(dir: Path, rest: string): Path {
    if dir == "" || dir[|dir| - 1] == '/' then dir + rest else dir + "/" + rest
  }

  /** Only "./" is relative to the referrer; any other specifier is relative to the working directory. */
  function Named(referrer: Path, spec: Specifier): string {
    if "./" <= spec then Join(Parent(referrer), spec) else spec
  }

  /** The file a specifier leads to, if there is one. */
  function Target(files: Files, referrer: Path, spec: Specifier): Option<Path> {
    var name := Named(referrer, spec);
    if name in files.canonical then Some(files.canonical[name]) else None
  }

  ghost predicate OnlySlashes(t: string) {
    forall i :: 0 <= i < |t| ==> t[i] == '/'
  }

  lemma {:induction false} StripsTheSlashes(dir: Path, slashes: string)
    requires OnlySlashes(slashes) && (dir != "" ==> dir[|dir| - 1] != '/')
    ensures StripSlashes(dir + slashes) == dir
    decreases slashes
  {
    if slashes == "" {
      assert dir + slashes == dir;
    } else {
      var p := dir + slashes;
      assert p[|p| - 1] == slashes[|slashes| - 1] == '/';
      assert p[..|p| - 1] == dir + slashes[..|slashes| - 1];
      StripsTheSlashes(dir, slashes[..|slashes| - 1]);
    }
  }

  /**
   The parent of a path: the directory in front of the last run of slashes, the root when
   there is nothing in front of it, and nothing for a bare name.  Every path is of one of
   these forms.
   */
  lemma ParentIsTheDirectory(dir: Path, slashes: string, name: string)
    requires OnlySlashes(slashes) && (dir != "" ==> dir[|dir| - 1] != '/') && '/' !in name
    requires slashes == "" ==> dir == ""
    ensures Parent(dir + slashes + name) == if slashes == "" then "" else if dir == "" then "/" else dir
  {
    var p := dir + slashes + name;
    if slashes == "" {
      assert p == name;
    } else {
      var i := |dir| + |slashes| - 1;
      assert p[i] == slashes[|slashes| - 1] == '/';
      assert forall j :: i < j < |p| ==> p[j] == name[j - i - 1];
      assert LastSlash(p) == i;
      assert p[..i] == dir + slashes[..|slashes| - 1];
      StripsTheSlashes(dir, slashes[..|slashes| - 1]);
    }
  }

  /**
   What a file in `dir` means by "./" and more: that name in its own directory; by any other
   specifier it means the specifier itself.
   */
  lemma MeansItsOwnDirectory(files: Files, dir: Path, name: string, rest: string, other: Specifier)
    requires '/' !in name && dir != "" && dir[|dir| - 1] != '/' && !("./" <= other)
    ensures var own, root := dir + "/./" + rest, "/./" + rest;
            && Target(files, dir + "/" + name, "./" + rest) ==
                 (if own in files.canonical then Some(files.canonical[own]) else None)
            && Target(files, "/" + name, "./" + rest) ==
                 (if root in files.canonical then Some(files.canonical[root]) else None)
            && Target(files, dir + "/" + name, other) ==
                 if other in files.canonical then Some(files.canonical[other]) else None
  {
    ParentIsTheDirectory(dir, "/", name);
    ParentIsTheDirectory("", "/", name);
    assert "" + "/" + name == "/" + name;
    var spec := "./" + rest;
    assert "./" <= spec;
    assert dir + "/" + spec == dir + "/./" + rest;
    assert "/" + spec == "/./" + rest;
  }

  /**
   Two files in different directories mean different names by a specifier exactly when it
   starts with "./".  Any other one, "../x" and "x" included, means the same to both.
   */
  lemma RelativeIff(a: Path, b: Path, spec: Specifier)
    requires Parent(a) != Parent(b)
    ensures Named(a, spec) != Named(b, spec) <==> "./" <= spec
  {
    var d, e := Parent(a), Parent(b);
    if "./" <= spec && d != "" && d != "/" && e != "" && e != "/" {
      if |d| == |e| {
        var i :| 0 <= i < |d| && d[i] != e[i];
        assert Join(d, spec)[i] != Join(e, spec)[i];
      } else {
        assert |Join(d, spec)| != |Join(e, spec)|;
      }
    }
  }

  /** For instance, "../x" does not mean the file above the importing one. */
  lemma ParentSpecifierIgnoresReferrer()
    ensures Parent("/a/m") != Parent("/b/m") && Named("/a/m", "../x") == Named("/b/m", "../x") == "../x"
    ensures Named("/a/m", "./x") == "/a/./x" && Named("/b/m", "./x") == "/b/./x"
  {
    assert LastSlash("/a/m") == 2 && "/a/m"[..2] == "/a";
    assert LastSlash("/b/m") == 2 && "/b/m"[..2] == "/b";
    assert "/a"[1] == 'a' && "/b"[1] == 'b';
    assert "../x"[1] != "./"[1] && "./x" == "./" + "x";
  }

  predicate Loads(files: Files, p: Path) {
    p in files.readable && files.readable[p].compiles
  }

  // ---------------------------------------------------------------- the import graph

  ghost predicate Imports(files: Files, p: Path, p': Path) {
    p in files.readable && exists spec :: spec in files.readable[p].imports && Target(files, p, spec) == Some(p')
  }

  ghost predicate IsChain(files: Files, chain: seq<Path>) {
    chain != [] && forall i :: 0 <= i < |chain| - 1 ==> Imports(files, chain[i], chain[i + 1])
  }

  ghost predicate Reaches(files: Files, entry: Path, p: Path) {
    exists chain :: IsChain(files, chain) && chain[0] == entry && chain[|chain| - 1] == p
  }

  /** Everything the program names, directly or not, exists, can be read, and compiles. */
  ghost predicate AllGood(files: Files, entry: Path) {
    forall p :: Reaches(files, entry, p) ==>
      && Loads(files, p)
      && forall spec :: spec in files.readable[p].imports ==> Target(files, p, spec) != None
  }

  lemma ReachesItself(files: Files, entry: Path)
    ensures Reaches(files, entry, entry)
  {
    assert IsChain(files, [entry]);
  }

  lemma ReachesNext(files: Files, entry: Path, p: Path, p': Path)
    requires Reaches(files, entry, p) && Imports(files, p, p')
    ensures Reaches(files, entry, p')
  {
    var chain :| IsChain(files, chain) && chain[0] == entry && chain[|chain| - 1] == p;
    assert IsChain(files, chain + [p']);
  }

  /** A set of files that contains the entry and all imports of its members contains all that is reachable. */
  lemma ClosedCoversReachable(files: Files, entry: Path, closed: set<Path>, p: Path)
    requires entry in closed && Reaches(files, entry, p)
    requires forall q, q' :: q in closed && Imports(files, q, q') ==> q' in closed
    ensures p in closed
  {
    var chain :| IsChain(files, chain) && chain[0] == entry && chain[|chain| - 1] == p;
    var i := 0;
    while i < |chain| - 1
      invariant 0 <= i < |chain| && chain[i] in closed
    {
      assert Imports(files, chain[i], chain[i + 1]);
      i := i + 1;
    }
  }

  /** The specifier cannot be resolved from `p`, and `e` says why. */
  ghost predicate Fails(files: Files, p: Path, spec: Specifier, e: LoadError) {
    match e
    case NotFound(name) => name == spec && Target(files, p, spec) == None
    case Unreadable(q) => Target(files, p, spec) == Some(q) && q !in files.readable
    case DoesNotCompile(q) =>
      Target(files, p, spec) == Some(q) && q in files.readable && !files.readable[q].compiles
  }

  /** The error names something that the program needs and that is missing or broken. */
  ghost predicate Genuine(files: Files, entry: Path, e: LoadError) {
    match e
    case NotFound(name) =>
      exists p :: Reaches(files, entry, p) && p in files.readable && name in files.readable[p].imports
                  && Target(files, p, name) == None
    case Unreadable(q) => Reaches(files, entry, q) && q !in files.readable
    case DoesNotCompile(q) => Reaches(files, entry, q) && q in files.readable && !files.readable[q].compiles
  }

  lemma FailureFails(files: Files, p: Path, spec: Specifier, e: LoadError)
    requires var target := Target(files, p, spec);
             e == if target == None then NotFound(spec)
                  else if target.value in files.readable then DoesNotCompile(target.value)
                  else Unreadable(target.value)
    requires var target := Target(files, p, spec);
             !(target != None && target.value in files.readable && files.readable[target.value].compiles)
    ensures Fails(files, p, spec, e)
  {
  }

  lemma TargetIsImport(files: Files, p: Path, spec: Specifier)
    requires p in files.readable && spec in files.readable[p].imports && Target(files, p, spec) != None
    ensures Imports(files, p, Target(files, p, spec).value)
  {
    hide Target;
  }

  lemma ImportsAreReachable(files: Files, entry: Path, p: Path)
    requires Reaches(files, entry, p)
    ensures forall q :: Imports(files, p, q) ==> Reaches(files, entry, q)
  {
    forall q | Imports(files, p, q)
      ensures Reaches(files, entry, q)
    {
      ReachesNext(files, entry, p, q);
    }
  }

  lemma FailureMeansNotAllGood(files: Files, entry: Path, p: Path, e: LoadError)
    requires Reaches(files, entry, p) && p in files.readable
    requires exists spec :: spec in files.readable[p].imports && Fails(files, p, spec, e)
    ensures !AllGood(files, entry) && Genuine(files, entry, e)
  {
    hide Reaches, Target;
    var spec :| spec in files.readable[p].imports && Fails(files, p, spec, e);
    if Target(files, p, spec) != None {
      assert Imports(files, p, Target(files, p, spec).value);
      ImportsAreReachable(files, entry, p);
    }
  }

  /** Once the imports of every cached file are cached too, nothing reachable is missing or broken. */
  lemma ClosedMeansDone(files: Files, entry: Path, cached: set<Path>)
    requires entry in cached && forall p :: p in cached ==> Loads(files, p)
    requires forall p, spec :: p in cached && p in files.readable && spec in files.readable[p].imports ==>
               Target(files, p, spec) != None && Target(files, p, spec).value in cached
    ensures AllGood(files, entry) && forall p :: Reaches(files, entry, p) ==> p in cached
  {
    hide Target;
    forall p | Reaches(files, entry, p)
      ensures p in cached
    {
      ClosedCoversReachable(files, entry, cached, p);
    }
  }

  // ---------------------------------------------------------------- the loader

  class Loader {
    const files: Files
    var moduleCache: map<Path, Module>
    var compiled: seq<Path>           // the file each module was compiled from

    /** The cache and the compilations correspond one to one. */
    ghost predicate Valid()
      reads this
    {
      && (forall p :: p in moduleCache ==> moduleCache[p] < |compiled| && compiled[moduleCache[p]] == p)
      && (forall m :: 0 <= m < |compiled| ==> compiled[m] in moduleCache && moduleCache[compiled[m]] == m)
      && (forall p :: p in moduleCache ==> Loads(files, p))
    }

    ghost predicate Extends(before: map<Path, Module>)
      reads this
    {
      forall p :: p in before ==> p in moduleCache && moduleCache[p] == before[p]
    }

    constructor (files: Files)
      ensures Valid() && this.files == files && moduleCache == map[] && compiled == []
    {
      this.files, moduleCache, compiled := files, map[], [];
    }

    /** The path a referrer was cached under; the empty path for a module that is not cached. */
    ghost function RefPath(referrer: Module): Path
      reads this
    {
      if referrer < |compiled| then compiled[referrer] else ""
    }

    /** The reverse lookup (module_loader.inc:34-38): visits entries until one holds the referrer. */
    method LookUpReferrer(referrer: Module) returns (refPath: Path)
      requires Valid()
      ensures refPath == RefPath(referrer)
      ensures forall p :: p in moduleCache && moduleCache[p] == referrer ==> p == refPath
    {
      refPath := "";
      var entries := moduleCache.Keys;
      while entries != {}
        invariant entries <= moduleCache.Keys
        invariant forall p :: p in moduleCache && p !in entries ==> moduleCache[p] != referrer
        decreases |entries|
      {
        var p :| p in entries;
        if moduleCache[p] == referrer {
          return p;
        }
        entries := entries - {p};
      }
    }

    /** Reading, compiling and caching one file. */
    method Compile(path: Path) returns (r: Result<Module, LoadError>)
      requires Valid() && path !in moduleCache
      modifies this
      ensures Valid() && Extends(old(moduleCache))
      ensures r.Ok? <==> path in files.readable && files.readable[path].compiles
      ensures r.Ok? ==> moduleCache == old(moduleCache)[path := r.value] && compiled == old(compiled) + [path]
      ensures r.Err? ==> moduleCache == old(moduleCache) && compiled == old(compiled)
                         && r.error == if path in files.readable then DoesNotCompile(path) else Unreadable(path)
    {
      if path !in files.readable {
        return Err(Unreadable(path));
      }
      if !files.readable[path].compiles {
        return Err(DoesNotCompile(path));
      }
      var m := |compiled|;
      compiled, moduleCache := compiled + [path], moduleCache[path := m];
      r := Ok(m);
    }

    /** ResolveModuleCallback (module_loader.inc:24-81) */
    method Resolve(spec: Specifier, referrer: Module) returns (r: Result<Module, LoadError>)
      requires Valid()
      modifies this
      ensures Valid() && Extends(old(moduleCache)) && old(compiled) <= compiled
      ensures var target := Target(files, old(RefPath(referrer)), spec);
              && (r.Ok? <==> target != None && target.value in files.readable && files.readable[target.value].compiles)
              && (r.Ok? ==> target.value in moduleCache && moduleCache[target.value] == r.value
                            && moduleCache.Keys == old(moduleCache).Keys + {target.value})
              && (r.Err? ==> moduleCache == old(moduleCache) && compiled == old(compiled)
                             && r.error == (if target == None then NotFound(spec)
                                            else if target.value in files.readable then DoesNotCompile(target.value)
                                            else Unreadable(target.value)))
    {
      var refPath := LookUpReferrer(referrer);
      var target := Target(files, refPath, spec);
      if target == None {
        return Err(NotFound(spec));
      }
      if target.value in moduleCache {
        return Ok(moduleCache[target.value]);
      }
      r := Compile(target.value);
    }

    /**
     HostResolveImportedModule (section 16.2.1.7 of ECMA-262, ES2022): once a specifier has
     resolved for a referrer, it resolves to the same module whatever is loaded in between.
     */
    method ResolveAgain(spec: Specifier, referrer: Module, between: seq<(Specifier, Module)>)
      returns (first: Result<Module, LoadError>, again: Result<Module, LoadError>)
      requires Valid() && referrer < |compiled|
      modifies this
      ensures Valid() && Extends(old(moduleCache))
      ensures first.Ok? ==> again == first
      ensures first.Err? ==> again.Err?
    {
      first := Resolve(spec, referrer);
      ghost var cached := moduleCache;
      var i := 0;
      while i < |between|
        invariant Valid() && Extends(cached) && Extends(old(moduleCache)) && old(compiled) <= compiled
      {
        var other := Resolve(between[i].0, between[i].1);
        i := i + 1;
      }
      again := Resolve(spec, referrer);
    }

    /** One module's requests, resolved in order; the first failure ends it. */
    method ResolveRequests(m: Module) returns (r: Result<seq<Module>, LoadError>)
      requires Valid() && m < |compiled|
      modifies this
      ensures Valid() && Extends(old(moduleCache)) && old(compiled) <= compiled
      ensures var p := compiled[m];
              && p in files.readable
              && (forall q :: q in moduleCache ==> q in old(moduleCache) || Imports(files, p, q))
              && (r.Ok? ==> Linked(p) && forall i :: 0 <= i < |r.value| ==> r.value[i] < |compiled|)
              && (r.Ok? ==> forall q :: q in moduleCache ==> q in old(moduleCache) || moduleCache[q] in r.value)
              && (r.Err? ==> exists spec :: spec in files.readable[p].imports && Fails(files, p, spec, r.error))
    {
      var requested: seq<Module> := [];
      var i := 0;
      while i < |files.readable[compiled[m]].imports|
        invariant Valid() && Extends(old(moduleCache)) && old(compiled) <= compiled
        invariant Requesting(compiled[m], i, requested, old(moduleCache))
      {
        hide Target, Imports, Loads, Loader.Valid, Loader.Requesting;
        var one := RequestOne(m, i, requested, old(moduleCache));
        if one.Err? {
          return Err(one.error);
        }
        requested := requested + [one.value];
        i := i + 1;
      }
      r := Ok(requested);
    }

    /** The first `i` imports of `p` are resolved, to `requested`; all that is new since `before` is among them. */
    ghost predicate Requesting(p: Path, i: nat, requested: seq<Module>, before: map<Path, Module>)
      reads this
    {
      && p in files.readable && i <= |files.readable[p].imports|
      && (forall j :: 0 <= j < i ==>
           var target := Target(files, p, files.readable[p].imports[j]); target != None && target.value in moduleCache)
      && (forall q :: q in moduleCache ==> q in before || (Imports(files, p, q) && moduleCache[q] in requested))
      && (forall j :: 0 <= j < |requested| ==> requested[j] < |compiled|)
    }

    method RequestOne(m: Module, i: nat, requested: seq<Module>, ghost before: map<Path, Module>)
      returns (r: Result<Module, LoadError>)
      requires Valid() && m < |compiled| && Requesting(compiled[m], i, requested, before)
      requires i < |files.readable[compiled[m]].imports|
      modifies this
      ensures Valid() && Extends(old(moduleCache)) && old(compiled) <= compiled
      ensures r.Ok? ==> Requesting(compiled[m], i + 1, requested + [r.value], before)
      ensures r.Err? ==> Requesting(compiled[m], i, requested, before)
                         && Fails(files, compiled[m], files.readable[compiled[m]].imports[i], r.error)
    {
      hide Target, Imports, Loads, Fails;
      var p := compiled[m];
      var spec := files.readable[p].imports[i];
      r := Resolve(spec, m);
      if r.Err? {
        FailureFails(files, p, spec, r.error);
      } else {
        TargetIsImport(files, p, spec);
        assert (requested + [r.value])[|requested|] == r.value;
      }
    }

    /** All imports of `p` are cached. */
    ghost predicate Linked(p: Path)
      reads this
    {
      p in files.readable && forall spec :: spec in files.readable[p].imports ==>
        Target(files, p, spec) != None && Target(files, p, spec).value in moduleCache
    }

    /** `linked` modules are done, `todo` are requested; every cached file is one or the other. */
    ghost predicate Linking(entry: Path, todo: seq<Module>, linked: set<Path>)
      reads this
    {
      && (forall i :: 0 <= i < |todo| ==> todo[i] < |compiled|)
      && (forall p :: p in moduleCache ==> Reaches(files, entry, p) && (p in linked || moduleCache[p] in todo))
      && linked <= files.readable.Keys && (forall p :: p in linked ==> Linked(p))
    }

    /** Links the first requested module; what it requests comes next. */
    method LinkNext(entry: Path, todo: seq<Module>, linked: set<Path>) returns (r: Result<seq<Module>, LoadError>)
      requires Valid() && Linking(entry, todo, linked) && todo != [] && compiled[todo[0]] !in linked
      modifies this
      ensures Valid() && Extends(old(moduleCache))
      ensures old(compiled)[todo[0]] in files.readable
      ensures forall p :: p in moduleCache ==> Reaches(files, entry, p)
      ensures r.Ok? ==> Linking(entry, r.value + todo[1..], linked + {old(compiled)[todo[0]]})
      ensures r.Err? ==> !AllGood(files, entry) && Genuine(files, entry, r.error)
    {
      hide Reaches, AllGood, Genuine, Imports, Target, Loads;
      ghost var path := compiled[todo[0]];
      ImportsAreReachable(files, entry, path);
      r := ResolveRequests(todo[0]);
      if r.Err? {
        FailureMeansNotAllGood(files, entry, path, r.error);
      }
    }

    /**
     LoadAndRunModules (module_loader.inc:83-119) up to evaluation: compile the entry, then
     let V8 link, depth first, each module once.  Cyclic imports included, it terminates; it
     compiles no file twice and only files the entry reaches; and it succeeds exactly when
     everything reachable is there and compiles, with exactly those files in the cache, and
     otherwise names something that is not.
     */
    method Load(entryName: string) returns (r: Result<Module, LoadError>)
      requires Valid() && moduleCache == map[]
      modifies this
      ensures Valid() && Distinct(compiled)
      ensures entryName !in files.canonical ==> r == Err(NotFound(entryName)) && moduleCache == map[]
      ensures entryName in files.canonical ==>
                var entry := files.canonical[entryName];
                && (forall p :: p in moduleCache ==> Reaches(files, entry, p))
                && (r.Ok? <==> AllGood(files, entry)) && (r.Err? ==> Genuine(files, entry, r.error))
                && (r.Ok? ==> entry in moduleCache && moduleCache[entry] == r.value
                              && forall p :: Reaches(files, entry, p) ==> p in moduleCache)
    {
      if entryName !in files.canonical {
        return Err(NotFound(entryName));
      }
      var entry := files.canonical[entryName];
      ReachesItself(files, entry);
      r := Compile(entry);
      if r.Err? {
        return;
      }
      var entryModule := r.value;
      var todo, linked := [entryModule], {};
      while todo != []
        invariant Valid() && entry in moduleCache && moduleCache[entry] == entryModule
        invariant Linking(entry, todo, linked)
        decreases files.readable.Keys - linked, |todo|
      {
        hide Reaches, AllGood, Genuine;
        if compiled[todo[0]] in linked {
          todo := todo[1..];
        } else {
          var path := compiled[todo[0]];
          var requested := LinkNext(entry, todo, linked);
          if requested.Err? {
            return Err(requested.error);
          }
          linked, todo := linked + {path}, requested.value + todo[1..];
        }
      }
      ClosedMeansDone(files, entry, moduleCache.Keys);
      r := Ok(entryModule);
    }
  }
}
