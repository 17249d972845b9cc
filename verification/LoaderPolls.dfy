/** How often a load asks the callback whether to stop: before it looks at a file, before it begins a
    module, and before every statement. */
module LoaderPolls {
  import opened ModuleKeys
  import opened LoaderSpec
  import opened LoaderGraph
  import opened LoaderSession

  /** The imports that went on to load their file. */
  function Clean(imports: seq<Import>): nat {
    if imports == [] then 0 else (if IsClean(imports[0]) then 1 else 0) + Clean(imports[1..])
  }

  /** The statements the parser finds, if there is a text to parse. */
  function Statements(w: World, bytes: Bytes): nat {
    if w.badUtf8(bytes).Some? then 0 else |w.parse(bytes).1|
  }

  /** The polls for a module: one to begin it, one for every statement, one for every file it asks for. */
  function Polls(w: World, m: Module): nat { 1 + Statements(w, m.text) + Clean(m.imports) }

  function PollsFor(w: World, mods: Modules, keys: seq<Key>): nat
    requires forall k :: k in keys ==> k in mods
  {
    if keys == [] then 0 else Polls(w, mods[keys[0]]) + PollsFor(w, mods, keys[1..])
  }

  lemma {:induction false} PollsForJoins(w: World, mods: Modules, a: seq<Key>, b: seq<Key>)
    requires forall k :: k in a + b ==> k in mods
    ensures (forall k :: k in a ==> k in mods) && (forall k :: k in b ==> k in mods)
    ensures PollsFor(w, mods, a + b) == PollsFor(w, mods, a) + PollsFor(w, mods, b)
  {
    assert forall k :: k in a ==> k in a + b;
    assert forall k :: k in b ==> k in a + b;
    if a == [] {
      assert a + b == b;
    } else {
      assert (a + b)[1..] == a[1..] + b;
      PollsForJoins(w, mods, a[1..], b);
    }
  }

  /** Modules that stay as they are cost what they cost. */
  lemma {:induction false} PollsForSame(w: World, mods: Modules, mods': Modules, keys: seq<Key>)
    requires forall k :: k in keys ==> k in mods && k in mods' && mods[k] == mods'[k]
    ensures PollsFor(w, mods, keys) == PollsFor(w, mods', keys)
  {
    if keys != [] {
      PollsForSame(w, mods, mods', keys[1..]);
    }
  }

  /** From one loader to a later one so many polls were made, besides those for the new modules. */
  ghost predicate PollsMade(w: World, ld: Loader, ld': Loader, others: nat) {
    && ld.arena <= ld'.arena
    && (forall k :: k in ld'.arena[|ld.arena|..] ==> k in ld'.modules)
    && ld'.polls == ld.polls + others + PollsFor(w, ld'.modules, ld'.arena[|ld.arena|..])
  }

  lemma PolledOn(w: World, a: Loader, b: Loader, c: Loader, n: nat, m: nat)
    requires LoaderInv(b) && Progress(b, c) && PollsMade(w, a, b, n) && PollsMade(w, b, c, m)
    ensures PollsMade(w, a, c, n + m)
  {
    hide PollsFor, StackOk, SourcesOk, IdsValid, AllSettled;
    var first, second := b.arena[|a.arena|..], c.arena[|b.arena|..];
    ArenaInTwo(a.arena, b.arena, c.arena);
    forall k | k in first ensures k in b.modules && k in c.modules && b.modules[k] == c.modules[k] {
      var i :| 0 <= i < |first| && first[i] == k;
      assert b.arena[|a.arena| + i] == k;
    }
    PollsForSame(w, b.modules, c.modules, first);
    PollsForJoins(w, c.modules, first, second);
  }

  lemma ArenaInTwo(a: seq<Key>, b: seq<Key>, c: seq<Key>)
    requires a <= b <= c
    ensures a <= c && c[|a|..] == b[|a|..] + c[|b|..]
  {
    assert c[..|b|] == b;
  }

  lemma NothingPolled(w: World, ld: Loader, ld': Loader, n: nat)
    requires ld'.arena == ld.arena && ld'.polls == ld.polls + n
    ensures PollsMade(w, ld, ld', n)
  {
    assert ld'.arena[|ld.arena|..] == [];
  }

  lemma OneModuleMore(w: World, mods: Modules, mods': Modules, keys: seq<Key>, key: Key, imports: seq<Import>)
    requires (forall k :: k in keys ==> k in mods) && key in mods && key !in keys
    requires mods' == mods[key := mods[key].(imports := imports)]
    ensures forall k :: k in keys + [key] ==> k in mods'
    ensures PollsFor(w, mods', keys + [key])
            == PollsFor(w, mods, keys) + 1 + Statements(w, mods[key].text) + Clean(imports)
  {
    hide Clean, Statements;
    PollsForSame(w, mods, mods', keys);
    PollsForJoins(w, mods', keys, [key]);
    assert [key][1..] == [];
  }

  /** The module that finishes adds its own polls. */
  lemma FinishPolls(w: World, ld: Loader, begun: Loader, at: Loader, key: Key, imports: seq<Import>, statements: nat)
    requires JustBegun(ld, begun, key) && LoaderInv(begun) && LoaderInv(at) && Progress(begun, at)
    requires key in begun.modules
    requires begun.polls == ld.polls + 2 && Statements(w, begun.modules[key].text) == statements
    requires PollsMade(w, begun, at, statements + Clean(imports))
    ensures key in at.modules && at.stack != [] && PollsMade(w, ld, Finished(at, key, imports), 1)
  {
    hide *;
    FinishedArena(ld, begun, at, key, imports);
    OneModuleMore(w, at.modules, Finished(at, key, imports).modules, at.arena[|begun.arena|..], key, imports);
    FinishedPolls(w, ld, begun, at, key, imports, statements);
  }

  lemma FinishedArena(ld: Loader, begun: Loader, at: Loader, key: Key, imports: seq<Import>)
    requires JustBegun(ld, begun, key) && LoaderInv(begun) && LoaderInv(at) && Progress(begun, at)
    ensures key in begun.modules && key in at.modules && at.modules[key] == begun.modules[key] && at.stack != []
    ensures begun.arena == ld.arena && ld.arena <= at.arena
    ensures var (done, more) := (Finished(at, key, imports), at.arena[|begun.arena|..]);
            && done.arena[|ld.arena|..] == more + [key] && ld.arena <= done.arena && done.polls == at.polls
            && done.modules == at.modules[key := at.modules[key].(imports := imports)]
            && key !in more && forall k :: k in more ==> k in at.modules
  {
    hide AllSettled, SourcesOk, IdsValid;
    FinishedIsThere(begun, at, ld.stack, key);
    var more := at.arena[|begun.arena|..];
    assert forall k :: k in more ==> k in at.arena;
  }

  lemma FinishedPolls(w: World, ld: Loader, begun: Loader, at: Loader, key: Key, imports: seq<Import>, statements: nat)
    requires key in at.modules && at.stack != [] && begun.arena == ld.arena && ld.arena <= at.arena
    requires begun.polls == ld.polls + 2 && Statements(w, at.modules[key].text) == statements
    requires PollsMade(w, begun, at, statements + Clean(imports))
    requires var (done, more) := (Finished(at, key, imports), at.arena[|begun.arena|..]);
             && done.arena[|ld.arena|..] == more + [key] && ld.arena <= done.arena && done.polls == at.polls
             && (forall k :: k in more + [key] ==> k in done.modules)
             && PollsFor(w, done.modules, more + [key])
                == PollsFor(w, at.modules, more) + 1 + Statements(w, at.modules[key].text) + Clean(imports)
    ensures PollsMade(w, ld, Finished(at, key, imports), 1)
  {
    hide PollsFor, Clean, Statements, Finished;
  }

  lemma BegunText(w: World, ld: Loader, path: Path, bytes: Bytes, roots: Roots)
    ensures var (begun, key) := (Begun(w, Polled(Polled(ld)), path, bytes, roots), Name(w, ld, path, roots));
            && begun.polls == ld.polls + 2 && key in begun.modules
            && Statements(w, begun.modules[key].text) == |StatementsOf(w, path, bytes)|
  {
  }

  lemma FinishedIsThere(begun: Loader, at: Loader, stack: seq<Key>, key: Key)
    requires LoaderInv(begun) && LoaderInv(at) && Progress(begun, at) && begun.stack == stack + [key]
    ensures key in begun.modules && key in at.modules && at.modules[key] == begun.modules[key]
    ensures at.stack != [] && key !in at.arena
  {
    assert begun.stack[|stack|] == key;
    assert key in begun.stack;
  }

  lemma LoadPolls(w: World, universe: set<Key>, ld: Loader, path: Path, bytes: Bytes, roots: Roots)
    requires Bounded(w, universe) && w.keyOf(path) in universe && LoaderInv(ld)
    requires Load(w, universe, ld, path, bytes, roots).Done?
    ensures PollsMade(w, ld, Load(w, universe, ld, path, bytes, roots).at, 1)
    decreases |Unloaded(w, universe, ld, roots)|, 0
  {
    hide LoaderInv, Unloaded, Bounded, JustBegun, PollsMade, Progress, Clean, Statements, Identify, SourceOf, Begun,
         StatementsOf, Extends, Obeys;
    var key := Name(w, ld, path, roots);
    var r := Load(w, universe, ld, path, bytes, roots);
    if key in ld.modules {
      NothingPolled(w, ld, r.at, 1);
    } else {
      var begun, statements := Begun(w, Polled(Polled(ld)), path, bytes, roots),
                               StatementsOf(w, path, bytes);
      BeginKeeps(w, universe, ld, path, bytes, roots);
      LoadImportsPolls(w, universe, begun, path, statements, roots);
      var done := LoadImports(w, universe, begun, path, statements, roots);
      LoadImportsProgress(w, universe, begun, path, statements, roots);
      BegunText(w, ld, path, bytes, roots);
      FinishPolls(w, ld, begun, done.at, key, done.value, |statements|);
    }
  }

  lemma LoadUsePolls(w: World, universe: set<Key>, ld: Loader, importer: Path, use: Stmt, roots: Roots)
    requires Bounded(w, universe) && use.Use? && LoaderInv(ld)
    requires LoadUse(w, universe, ld, importer, use, roots).Done?
    ensures var r := LoadUse(w, universe, ld, importer, use, roots);
            PollsMade(w, ld, r.at, if IsClean(r.value) then 1 else 0)
    decreases |Unloaded(w, universe, ld, roots)|, 1
  {
    hide LoaderInv, Load, Unloaded, Identify;
    var found := w.resolve(importer, use.path, roots);
    var r := LoadUse(w, universe, ld, importer, use, roots);
    if found.Found? && Name(w, ld, found.path, roots) !in ld.stack {
      var ld0 := Renamed(w, ld, found.path, roots);
      RenamedInv(w, ld, found.path, roots);
      Naming(w, universe, ld, found.path, roots);
      LoadPolls(w, universe, ld0, found.path, w.read(found.path), roots);
    } else {
      NothingPolled(w, ld, r.at, 0);
    }
  }

  lemma Naming(w: World, universe: set<Key>, ld: Loader, path: Path, roots: Roots)
    requires LoaderInv(ld)
    ensures |Unloaded(w, universe, Renamed(w, ld, path, roots), roots)| <= |Unloaded(w, universe, ld, roots)|
  {
    NamedDescends(w, universe, ld, path, roots);
  }

  lemma LoadImportsPolls(w: World, universe: set<Key>, ld: Loader, importer: Path, statements: seq<Stmt>, roots: Roots)
    requires Bounded(w, universe) && LoaderInv(ld)
    requires LoadImports(w, universe, ld, importer, statements, roots).Done?
    ensures var r := LoadImports(w, universe, ld, importer, statements, roots);
            PollsMade(w, ld, r.at, |statements| + Clean(r.value))
    decreases |Unloaded(w, universe, ld, roots)|, 2 + |statements|, 1
  {
    hide *;
    if statements == [] {
      NoStatements(w, universe, ld, importer, roots);
      NothingPolled(w, ld, ld, 0);
    } else if statements[0].Other? {
      OtherPolls(w, universe, ld, importer, statements, roots);
    } else {
      UsePolls(w, universe, ld, importer, statements, roots);
    }
  }

  lemma OtherPolls(w: World, universe: set<Key>, ld: Loader, importer: Path, statements: seq<Stmt>, roots: Roots)
    requires Bounded(w, universe) && LoaderInv(ld) && statements != [] && statements[0].Other?
    requires LoadImports(w, universe, ld, importer, statements, roots).Done?
    ensures var r := LoadImports(w, universe, ld, importer, statements, roots);
            PollsMade(w, ld, r.at, |statements| + Clean(r.value))
    decreases |Unloaded(w, universe, ld, roots)|, 2 + |statements|, 0
  {
    hide *;
    var ld0, rest := Polled(ld), statements[1..];
    StartsOn(w, universe, ld, roots);
    OtherFirst(w, universe, ld, importer, statements, roots);
    LoadImportsPolls(w, universe, ld0, importer, rest, roots);
    LoadImportsProgress(w, universe, ld0, importer, rest, roots);
    var r := LoadImports(w, universe, ld0, importer, rest, roots);
    PolledOn(w, ld, ld0, r.at, 1, |rest| + Clean(r.value));
  }

  lemma UsePolls(w: World, universe: set<Key>, ld: Loader, importer: Path, statements: seq<Stmt>, roots: Roots)
    requires Bounded(w, universe) && LoaderInv(ld) && statements != [] && statements[0].Use?
    requires LoadImports(w, universe, ld, importer, statements, roots).Done?
    ensures var r := LoadImports(w, universe, ld, importer, statements, roots);
            PollsMade(w, ld, r.at, |statements| + Clean(r.value))
    decreases |Unloaded(w, universe, ld, roots)|, 2 + |statements|, 0
  {
    hide *;
    var ld0, rest := Polled(ld), statements[1..];
    StartsOn(w, universe, ld, roots);
    UseFirst(w, universe, ld, importer, statements, roots);
    var one := LoadUse(w, universe, ld0, importer, statements[0], roots);
    LoadUsePolls(w, universe, ld0, importer, statements[0], roots);
    LoadUseProgress(w, universe, ld0, importer, statements[0], roots);
    UnloadedShrinks(w, universe, ld, one.at, roots);
    LoadImportsPolls(w, universe, one.at, importer, rest, roots);
    LoadImportsProgress(w, universe, one.at, importer, rest, roots);
    var r := LoadImports(w, universe, one.at, importer, rest, roots);
    JoinPolls(w, ld, ld0, one.at, r.at, one.value, r.value, |rest|);
  }

  /** A poll, an import, and the rest. */
  lemma JoinPolls(w: World, ld: Loader, a: Loader, b: Loader, c: Loader, first: Import, rest: seq<Import>, more: nat)
    requires LoaderInv(a) && LoaderInv(b) && Progress(a, b) && Progress(b, c)
    requires PollsMade(w, ld, a, 1) && PollsMade(w, a, b, if IsClean(first) then 1 else 0)
    requires PollsMade(w, b, c, more + Clean(rest))
    ensures PollsMade(w, ld, c, 1 + more + Clean([first] + rest))
  {
    hide *;
    var n := if IsClean(first) then 1 else 0;
    PolledOn(w, ld, a, b, 1, n);
    PolledOn(w, ld, b, c, 1 + n, more + Clean(rest));
    CleanFirst(first, rest);
  }

  lemma CleanFirst(first: Import, rest: seq<Import>)
    ensures Clean([first] + rest) == (if IsClean(first) then 1 else 0) + Clean(rest)
  {
    assert ([first] + rest)[1..] == rest;
  }

  lemma NoStatements(w: World, universe: set<Key>, ld: Loader, importer: Path, roots: Roots)
    requires Bounded(w, universe)
    ensures LoadImports(w, universe, ld, importer, [], roots) == Done(ld, []) && Clean([]) == 0
  {
  }

  lemma OtherFirst(w: World, universe: set<Key>, ld: Loader, importer: Path, statements: seq<Stmt>, roots: Roots)
    requires Bounded(w, universe) && LoaderInv(ld) && statements != [] && statements[0].Other?
    requires LoadImports(w, universe, ld, importer, statements, roots).Done?
    ensures LoadImports(w, universe, Polled(ld), importer, statements[1..], roots)
            == LoadImports(w, universe, ld, importer, statements, roots)
  {
  }

  lemma UseFirst(w: World, universe: set<Key>, ld: Loader, importer: Path, statements: seq<Stmt>, roots: Roots)
    requires Bounded(w, universe) && LoaderInv(ld) && statements != [] && statements[0].Use?
    requires LoadImports(w, universe, ld, importer, statements, roots).Done?
    ensures var one := LoadUse(w, universe, Polled(ld), importer, statements[0], roots);
            && one.Done?
            && var rest := LoadImports(w, universe, one.at, importer, statements[1..], roots);
            && rest.Done?
            && LoadImports(w, universe, ld, importer, statements, roots) == Done(rest.at, [one.value] + rest.value)
  {
    hide LoadUse, LoaderInv;
  }

  lemma StartsOn(w: World, universe: set<Key>, ld: Loader, roots: Roots)
    requires LoaderInv(ld)
    ensures Progress(ld, Polled(ld)) && LoaderInv(Polled(ld)) && PollsMade(w, ld, Polled(ld), 1)
    ensures |Unloaded(w, universe, Polled(ld), roots)| <= |Unloaded(w, universe, ld, roots)|
  {
    FewerUnloaded(w, universe, ld, Polled(ld), roots);
    PolledInv(ld, ld.polls + 1);
    NothingPolled(w, ld, Polled(ld), 1);
  }

  lemma UnloadedShrinks(w: World, universe: set<Key>, ld: Loader, at: Loader, roots: Roots)
    requires Extends(Polled(ld), at)
    ensures |Unloaded(w, universe, at, roots)| <= |Unloaded(w, universe, ld, roots)|
  {
    FewerUnloaded(w, universe, ld, at, roots);
  }

  lemma LoadUseProgress(w: World, universe: set<Key>, ld: Loader, importer: Path, use: Stmt, roots: Roots)
    requires Bounded(w, universe) && use.Use? && LoaderInv(ld)
    requires LoadUse(w, universe, ld, importer, use, roots).Done?
    ensures var r := LoadUse(w, universe, ld, importer, use, roots);
            Progress(ld, r.at) && LoaderInv(r.at) && Extends(ld, r.at)
  {
    LoadUseKeeps(w, universe, ld, importer, use, roots);
  }

  lemma LoadImportsProgress(w: World, universe: set<Key>, ld: Loader, importer: Path, statements: seq<Stmt>,
                            roots: Roots)
    requires Bounded(w, universe) && LoaderInv(ld)
    requires LoadImports(w, universe, ld, importer, statements, roots).Done?
    ensures var r := LoadImports(w, universe, ld, importer, statements, roots); Progress(ld, r.at) && LoaderInv(r.at)
  {
    LoadImportsKeeps(w, universe, ld, importer, statements, roots);
  }

  // ----- Sessions -----

  /** The polls for a request itself: those for an entry's statements and the files they ask for, or the one
      for a file. */
  function PollsToServe(request: Request, answer: Answer): nat {
    match request
    case Entry(_, statements, _) => |statements| + if answer.EntryImports? then Clean(answer.imports) else 0
    case File(_, _, _) => 1
  }

  function PollsToServeAll(requests: seq<Request>, answers: seq<Answer>): nat
    requires |answers| == |requests|
  {
    if requests == [] then 0
    else PollsToServe(requests[0], answers[0]) + PollsToServeAll(requests[1..], answers[1..])
  }

  lemma ServeOnePolls(w: World, universe: set<Key>, ld: Loader, request: Request)
    requires Bounded(w, universe) && InUniverse(w, universe, request) && LoaderInv(ld)
    requires ServeOne(w, universe, ld, request).Done?
    ensures var r := ServeOne(w, universe, ld, request);
            && LoaderInv(r.at) && Progress(ld, r.at)
            && PollsMade(w, ld, r.at, PollsToServe(request, r.value))
  {
    hide LoaderInv, Load, LoadImports, Bounded, PollsMade;
    match request
    case Entry(importer, statements, roots) =>
      LoadImportsPolls(w, universe, ld, importer, statements, roots);
      LoadImportsProgress(w, universe, ld, importer, statements, roots);
    case File(path, bytes, roots) =>
      LoadPolls(w, universe, ld, path, bytes, roots);
      LoadKeeps(w, universe, ld, path, bytes, roots);
  }

  /** Serving requests asks the callback exactly so often: for every request, and for every module that is
      loaded on the way. */
  lemma {:induction false} ServePolls(w: World, universe: set<Key>, ld: Loader, requests: seq<Request>)
    requires Bounded(w, universe) && (forall q :: q in requests ==> InUniverse(w, universe, q)) && LoaderInv(ld)
    requires Serve(w, universe, ld, requests).Done?
    ensures var r := Serve(w, universe, ld, requests);
            && |r.value| == |requests| && LoaderInv(r.at) && Progress(ld, r.at)
            && PollsMade(w, ld, r.at, PollsToServeAll(requests, r.value))
    decreases |requests|
  {
    if requests == [] {
      NothingPolled(w, ld, ld, 0);
    } else {
      hide LoaderInv, ServeOne, Bounded, PollsMade, InUniverse, PollsToServe, Progress;
      var one := ServeOne(w, universe, ld, requests[0]);
      ServeOnePolls(w, universe, ld, requests[0]);
      ServePolls(w, universe, one.at, requests[1..]);
      var rest := Serve(w, universe, one.at, requests[1..]);
      PolledOn(w, ld, one.at, rest.at, PollsToServe(requests[0], one.value),
               PollsToServeAll(requests[1..], rest.value));
      Progressed(ld, one.at, rest.at);
      assert ([one.value] + rest.value)[1..] == rest.value;
    }
  }

  lemma Progressed(a: Loader, b: Loader, c: Loader)
    requires Progress(a, b) && Progress(b, c)
    ensures Progress(a, c)
  {
  }
}
