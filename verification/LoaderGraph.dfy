/** The import graph a loader records, and what loading keeps about it. */
module LoaderGraph {
  import opened Options
  import opened ModuleKeys
  import opened LoaderSpec

  // ----- Paths in the recorded graph -----

  /** Some import of `a` resolved to `b`, whether it closed a cycle or not. */
  ghost predicate Edge(mods: Modules, a: Key, b: Key) {
    a in mods && exists i :: 0 <= i < |mods[a].imports| && mods[a].imports[i].target == Some(b)
  }

  ghost predicate Walk(mods: Modules, p: seq<Key>) {
    p != [] && forall i {:trigger p[i]} :: 0 <= i < |p| - 1 ==> Edge(mods, p[i], p[i + 1])
  }

  ghost predicate Reach(mods: Modules, a: Key, b: Key) {
    exists p :: Walk(mods, p) && p[0] == a && p[|p| - 1] == b
  }

  lemma ReachSelf(mods: Modules, a: Key)
    ensures Reach(mods, a, a)
  {
    assert Walk(mods, [a]);
  }

  lemma ReachStep(mods: Modules, a: Key, b: Key, c: Key)
    requires Edge(mods, a, b) && Reach(mods, b, c)
    ensures Reach(mods, a, c)
  {
    var p :| Walk(mods, p) && p[0] == b && p[|p| - 1] == c;
    var q := [a] + p;
    forall i | 0 <= i < |q| - 1 ensures Edge(mods, q[i], q[i + 1]) {
      assert i > 0 ==> q[i] == p[i - 1];
    }
    assert Walk(mods, q) && q[0] == a && q[|q| - 1] == c;
  }

  /** Modules keep their imports, except those that had none recorded yet. */
  ghost predicate Refines(mods: Modules, mods': Modules) {
    forall k :: k in mods ==> k in mods' && (mods[k].imports == [] || mods'[k].imports == mods[k].imports)
  }

  lemma ReachGrows(mods: Modules, mods': Modules, a: Key, b: Key)
    requires Refines(mods, mods') && Reach(mods, a, b)
    ensures Reach(mods', a, b)
  {
  }

  // ----- The loader's invariant -----

  ghost predicate Distinct(s: seq<Key>) {
    forall i, j :: 0 <= i < j < |s| ==> s[i] != s[j]
  }

  predicate IsCycle(i: Import) { i.target.Some? && i.diagnostic.Some? }

  predicate IsClean(i: Import) { i.target.Some? && i.diagnostic.None? }

  /** The target of an import is there; unless the import closes a cycle, it was finished before. */
  ghost predicate Settled(mods: Modules, finished: seq<Key>, i: Import) {
    && (i.target.Some? ==> i.target.value in mods)
    && (IsClean(i) ==> i.target.value in finished)
    && (IsCycle(i) ==> i.diagnostic == Some(CycleDiagnostic(i.span)))
    && (i.target.None? && i.diagnostic.Some? ==> i.diagnostic.value.code == ModuleRead)
  }

  ghost predicate AllSettled(mods: Modules, finished: seq<Key>, imports: seq<Import>) {
    forall i :: i in imports ==> Settled(mods, finished, i)
  }

  /** Arena modules stand after the modules they import. */
  ghost predicate ArenaOk(mods: Modules, arena: seq<Key>) {
    && Distinct(arena)
    && forall i {:trigger arena[i]} :: 0 <= i < |arena| ==>
         arena[i] in mods && AllSettled(mods, arena[..i], mods[arena[i]].imports)
  }

  /** Every module is either still loading, without imports, or in the arena. */
  ghost predicate StackOk(ld: Loader) {
    && Distinct(ld.stack)
    && (forall k :: k in ld.modules <==> k in ld.stack || k in ld.arena)
    && (forall k :: k in ld.stack ==> k !in ld.arena && ld.modules[k].imports == [])
  }

  ghost predicate LoaderInv(ld: Loader) {
    IdsValid(ld.ids) && StackOk(ld) && ArenaOk(ld.modules, ld.arena) && SourcesOk(ld)
  }

  /** Each module has its own source. */
  ghost predicate SourcesOk(ld: Loader) {
    && (forall k :: k in ld.modules ==>
          && ld.modules[k].key == k
          && ld.modules[k].source < |ld.sources|
          && ld.sources[ld.modules[k].source] == ld.modules[k].path)
    && (forall k, q :: k in ld.modules && q in ld.modules && ld.modules[k].source == ld.modules[q].source ==> k == q)
  }

  /** What was there stays: modules, finished order, sources; and as many sources are added as modules. */
  ghost predicate Progress(ld: Loader, ld': Loader) {
    && (forall k :: k in ld.modules ==> k in ld'.modules && ld'.modules[k] == ld.modules[k])
    && ld.arena <= ld'.arena && ld.sources <= ld'.sources && ld'.stack == ld.stack
    && |ld'.sources| - |ld.sources| == |ld'.modules| - |ld.modules|
  }

  /** A cycle import of a newly loaded module points back to the stack, or closes a cycle among
      recorded imports. */
  ghost predicate CyclesAnchored(ld: Loader, ld': Loader) {
    forall m, i :: m in ld'.modules && m !in ld.modules && i in ld'.modules[m].imports && IsCycle(i) ==>
      i.target.value in ld.stack || Reach(ld'.modules, i.target.value, m)
  }

  ghost predicate NewFrom(ld: Loader, ld': Loader, k: Key) {
    forall m :: m in ld'.modules && m !in ld.modules ==> Reach(ld'.modules, k, m)
  }

  ghost predicate FromImports(mods: Modules, imports: seq<Import>, m: Key) {
    exists i :: i in imports && i.target.Some? && Reach(mods, i.target.value, m)
  }

  ghost predicate NewFromImports(ld: Loader, ld': Loader, imports: seq<Import>) {
    forall m :: m in ld'.modules && m !in ld.modules ==> FromImports(ld'.modules, imports, m)
  }

  /** Cycle imports found now point at the stack. */
  ghost predicate CyclesOnStack(stack: seq<Key>, imports: seq<Import>) {
    forall i :: i in imports && IsCycle(i) ==> i.target.value in stack
  }

  lemma ProgressTrans(a: Loader, b: Loader, c: Loader)
    requires Progress(a, b) && Progress(b, c) && CyclesAnchored(a, b) && CyclesAnchored(b, c)
    ensures Progress(a, c) && CyclesAnchored(a, c)
  {
  }

  lemma SettledGrows(ld: Loader, ld': Loader, imports: seq<Import>)
    requires Progress(ld, ld') && AllSettled(ld.modules, ld.arena, imports)
    ensures AllSettled(ld'.modules, ld'.arena, imports)
  {
  }

  // ----- The induction over a load -----

  ghost predicate Loaded(ld: Loader, ld': Loader, key: Key) {
    && LoaderInv(ld') && Progress(ld, ld') && CyclesAnchored(ld, ld') && NewFrom(ld, ld', key)
    && key in ld'.modules && (key !in ld.stack ==> key in ld'.arena)
  }

  ghost predicate ImportsLoaded(ld: Loader, ld': Loader, imports: seq<Import>) {
    && LoaderInv(ld') && Progress(ld, ld') && CyclesAnchored(ld, ld') && NewFromImports(ld, ld', imports)
    && AllSettled(ld'.modules, ld'.arena, imports) && CyclesOnStack(ld.stack, imports)
  }

  /** `begun` is `ld` with the new module `key` on its stack. */
  ghost predicate JustBegun(ld: Loader, begun: Loader, key: Key) {
    && key !in ld.modules
    && begun.stack == ld.stack + [key] && begun.arena == ld.arena
    && ld.sources <= begun.sources && |begun.sources| == |ld.sources| + 1
    && begun.modules.Keys == ld.modules.Keys + {key}
    && (forall k :: k in ld.modules ==> begun.modules[k] == ld.modules[k])
  }

  /** Naming a module changes nothing else. */
  lemma RenamedInv(w: World, ld: Loader, path: Path, roots: Roots)
    requires LoaderInv(ld)
    ensures LoaderInv(Renamed(w, ld, path, roots))
  {
    hide Identify, ArenaOk, StackOk, SourcesOk, IdsValid;
    IdentifyKeeps(w.scoped, ld.ids, w.keyOf(path), roots);
    RenamedSame(ld, Renamed(w, ld, path, roots));
  }

  lemma RenamedSame(ld: Loader, ld': Loader)
    requires ld' == ld.(ids := ld'.ids)
    ensures StackOk(ld) ==> StackOk(ld')
    ensures SourcesOk(ld) ==> SourcesOk(ld')
  {
  }

  /** Nor does polling. */
  lemma PolledInv(ld: Loader, polls: nat)
    requires LoaderInv(ld)
    ensures LoaderInv(ld.(polls := polls))
  {
  }

  lemma BegunSources(ld: Loader, ld': Loader, key: Key, m: Module)
    requires SourcesOk(ld) && key !in ld.modules && m.key == key && m.source == |ld.sources|
    requires ld'.modules == ld.modules[key := m] && ld'.sources == ld.sources + [m.path]
    ensures SourcesOk(ld')
  {
  }

  lemma BegunArena(mods: Modules, arena: seq<Key>, key: Key, m: Module)
    requires ArenaOk(mods, arena) && key !in mods
    ensures ArenaOk(mods[key := m], arena)
  {
  }

  lemma BegunStack(ld: Loader, ld': Loader, key: Key, m: Module)
    requires StackOk(ld) && key !in ld.modules && m.imports == [] && ld'.arena == ld.arena
    requires ld'.modules == ld.modules[key := m] && ld'.stack == ld.stack + [key]
    ensures StackOk(ld')
  {
  }

  lemma BegunInv(w: World, ld: Loader, path: Path, bytes: Bytes, roots: Roots)
    requires LoaderInv(ld) && Name(w, ld, path, roots) !in ld.modules
    ensures var begun := Begun(w, ld, path, bytes, roots);
            LoaderInv(begun) && JustBegun(ld, begun, Name(w, ld, path, roots))
  {
    hide AllSettled, SourcesOk, ArenaOk, StackOk;
    var begun, key := Begun(w, ld, path, bytes, roots), Name(w, ld, path, roots);
    BegunSources(ld, begun, key, begun.modules[key]);
    BegunArena(ld.modules, ld.arena, key, begun.modules[key]);
    BegunStack(ld, begun, key, begun.modules[key]);
    RenamedInv(w, ld, path, roots);
  }

  /** Appending a finished module to the arena. */
  lemma ArenaGrows(mods: Modules, arena: seq<Key>, key: Key, imports: seq<Import>)
    requires ArenaOk(mods, arena) && key in mods && key !in arena && AllSettled(mods, arena, imports)
    ensures ArenaOk(mods[key := mods[key].(imports := imports)], arena + [key])
  {
    var mods' := mods[key := mods[key].(imports := imports)];
    var arena' := arena + [key];
    forall i | 0 <= i < |arena'| ensures AllSettled(mods', arena'[..i], mods'[arena'[i]].imports) {
      if i < |arena| {
        assert arena'[..i] == arena[..i] && arena'[i] == arena[i];
        assert arena[i] in arena;
        assert AllSettled(mods, arena[..i], mods[arena[i]].imports);
      } else {
        assert arena'[..i] == arena && arena'[i] == key;
      }
    }
  }

  lemma FinishedSources(ld: Loader, key: Key, imports: seq<Import>)
    requires SourcesOk(ld) && ld.stack != [] && key in ld.modules
    ensures SourcesOk(Finished(ld, key, imports))
  {
  }

  /** The finished module moves from the stack to the arena. */
  lemma FinishedStack(ld: Loader, stack: seq<Key>, key: Key, imports: seq<Import>)
    requires StackOk(ld) && ld.stack == stack + [key] && key in ld.modules
    ensures StackOk(Finished(ld, key, imports)) && Finished(ld, key, imports).stack == stack
  {
  }

  lemma FinishedInv(ld: Loader, stack: seq<Key>, key: Key, imports: seq<Import>)
    requires LoaderInv(ld) && ld.stack == stack + [key] && AllSettled(ld.modules, ld.arena, imports)
    requires key in ld.modules
    ensures LoaderInv(Finished(ld, key, imports)) && Finished(ld, key, imports).stack == stack
  {
    hide AllSettled, ArenaOk, Settled, Distinct, SourcesOk;
    FinishedStack(ld, stack, key, imports);
    FinishedSources(ld, key, imports);
    assert key !in ld.arena by { assert ld.stack[|stack|] == key; }
    ArenaGrows(ld.modules, ld.arena, key, imports);
  }

  /** A loader that has gained no module. */
  lemma NothingNew(ld: Loader, ld': Loader, key: Key, imports: seq<Import>)
    requires ld'.modules == ld.modules && ld'.arena == ld.arena && ld'.stack == ld.stack && ld'.sources == ld.sources
    ensures Progress(ld, ld') && CyclesAnchored(ld, ld') && NewFrom(ld, ld', key) && NewFromImports(ld, ld', imports)
  {
  }

  lemma LoadKeeps(w: World, universe: set<Key>, ld: Loader, path: Path, bytes: Bytes, roots: Roots)
    requires Bounded(w, universe) && w.keyOf(path) in universe && LoaderInv(ld)
    requires Load(w, universe, ld, path, bytes, roots).Done?
    ensures var r := Load(w, universe, ld, path, bytes, roots);
            && Loaded(ld, r.at, r.value)
            && r.value == Name(w, ld, path, roots)
    decreases |Unloaded(w, universe, ld, roots)|, 0
  {
    hide LoaderInv, Loaded, ImportsLoaded, JustBegun, Unloaded, Bounded, Name, Renamed, Begun;
    var r := Load(w, universe, ld, path, bytes, roots);
    var key, twice := Name(w, ld, path, roots), Polled(Polled(ld));
    if key in ld.modules {
      RenamedKeeps(w, ld, path, roots, ld.polls + 1);
    } else {
      BeginKeeps(w, universe, ld, path, bytes, roots);
      var begun := Begun(w, twice, path, bytes, roots);
      LoadImportsKeeps(w, universe, begun, path, StatementsOf(w, path, bytes), roots);
      var done := LoadImports(w, universe, begun, path, StatementsOf(w, path, bytes), roots);
      FinishLoad(ld, begun, done.at, key, done.value);
    }
  }

  lemma RenamedKeeps(w: World, ld: Loader, path: Path, roots: Roots, polls: nat)
    requires LoaderInv(ld) && Name(w, ld, path, roots) in ld.modules
    ensures Loaded(ld, Renamed(w, ld.(polls := polls), path, roots), Name(w, ld, path, roots))
  {
    PolledInv(ld, polls);
    RenamedInv(w, ld.(polls := polls), path, roots);
    NothingNew(ld, Renamed(w, ld.(polls := polls), path, roots), Name(w, ld, path, roots), []);
  }

  /** Beginning a module keeps the invariant and leaves fewer files unloaded. */
  lemma BeginKeeps(w: World, universe: set<Key>, ld: Loader, path: Path, bytes: Bytes, roots: Roots)
    requires LoaderInv(ld) && w.keyOf(path) in universe && Name(w, ld, path, roots) !in ld.modules
    ensures var begun := Begun(w, Polled(Polled(ld)), path, bytes, roots);
            && LoaderInv(begun) && JustBegun(ld, begun, Name(w, ld, path, roots))
            && |Unloaded(w, universe, begun, roots)| < |Unloaded(w, universe, ld, roots)|
  {
    hide AllSettled, SourcesOk, ArenaOk, StackOk;
    var begun, phys := Begun(w, Polled(Polled(ld)), path, bytes, roots), w.keyOf(path);
    PolledInv(ld, ld.polls + 2);
    BegunInv(w, Polled(Polled(ld)), path, bytes, roots);
    IdentifyKeeps(w.scoped, ld.ids, phys, roots);
    assert phys in Unloaded(w, universe, ld, roots) && phys !in Unloaded(w, universe, begun, roots);
    FewerUnloaded(w, universe, ld, begun, roots);
  }

  lemma FinishProgress(ld: Loader, begun: Loader, at: Loader, key: Key, imports: seq<Import>)
    requires JustBegun(ld, begun, key) && Progress(begun, at) && key in at.modules && at.stack != []
    requires Finished(at, key, imports).stack == ld.stack
    ensures Progress(ld, Finished(at, key, imports))
  {
  }

  /** Everything loaded while the imports of `key` were loaded is reachable from it. */
  lemma FinishNewFrom(ld: Loader, begun: Loader, at: Loader, key: Key, imports: seq<Import>)
    requires JustBegun(ld, begun, key) && NewFromImports(begun, at, imports) && key in at.modules && at.stack != []
    requires at.modules[key].imports == []
    ensures NewFrom(ld, Finished(at, key, imports), key)
  {
    var done := Finished(at, key, imports);
    forall m | m in done.modules && m !in ld.modules ensures Reach(done.modules, key, m) {
      ReachSelf(done.modules, key);
      if m != key {
        assert FromImports(at.modules, imports, m);
        var i :| i in imports && i.target.Some? && Reach(at.modules, i.target.value, m);
        assert Refines(at.modules, done.modules);
        ReachGrows(at.modules, done.modules, i.target.value, m);
        assert Edge(done.modules, key, i.target.value);
        ReachStep(done.modules, key, i.target.value, m);
      }
    }
  }

  /** A cycle import that pointed at `key` on the stack now closes a recorded cycle. */
  lemma FinishCycles(ld: Loader, begun: Loader, at: Loader, key: Key, imports: seq<Import>)
    requires JustBegun(ld, begun, key) && CyclesAnchored(begun, at) && CyclesOnStack(begun.stack, imports)
    requires key in at.modules && at.stack != [] && at.modules[key].imports == []
    requires NewFrom(ld, Finished(at, key, imports), key)
    ensures CyclesAnchored(ld, Finished(at, key, imports))
  {
    var done := Finished(at, key, imports);
    forall m, i | m in done.modules && m !in ld.modules && i in done.modules[m].imports && IsCycle(i)
      ensures i.target.value in ld.stack || Reach(done.modules, i.target.value, m)
    {
      var t := i.target.value;
      if t !in ld.stack && t != key {
        assert t !in begun.stack;
        assert m != key;
        assert Reach(at.modules, t, m);
        assert Refines(at.modules, done.modules);
        ReachGrows(at.modules, done.modules, t, m);
      }
    }
  }

  /** From a module's imports to the module. */
  lemma FinishLoad(ld: Loader, begun: Loader, at: Loader, key: Key, imports: seq<Import>)
    requires JustBegun(ld, begun, key) && ImportsLoaded(begun, at, imports)
    ensures key in at.modules && at.stack != []
    ensures Loaded(ld, Finished(at, key, imports), key)
  {
    hide Reach, CyclesAnchored, NewFromImports, NewFrom, AllSettled, SourcesOk;
    assert key in begun.modules;
    assert at.stack[|ld.stack|] == key;
    assert key in at.stack;
    FinishedInv(at, ld.stack, key, imports);
    FinishProgress(ld, begun, at, key, imports);
    FinishNewFrom(ld, begun, at, key, imports);
    FinishCycles(ld, begun, at, key, imports);
    var done := Finished(at, key, imports);
    assert done.arena[|at.arena|] == key;
  }

  /** A finished load is what its import brings in. */
  lemma LoadedForImport(ld: Loader, at: Loader, i: Import)
    requires IsClean(i) && NewFrom(ld, at, i.target.value) && i.target.value in at.arena && i.target.value in at.modules
    ensures NewFromImports(ld, at, [i]) && AllSettled(at.modules, at.arena, [i]) && CyclesOnStack(ld.stack, [i])
  {
    hide Reach;
    forall m | m in at.modules && m !in ld.modules ensures FromImports(at.modules, [i], m) {
      assert i in [i] && Reach(at.modules, i.target.value, m);
    }
  }

  lemma LoadUseKeeps(w: World, universe: set<Key>, ld: Loader, importer: Path, use: Stmt, roots: Roots)
    requires Bounded(w, universe) && use.Use? && LoaderInv(ld)
    requires LoadUse(w, universe, ld, importer, use, roots).Done?
    ensures var r := LoadUse(w, universe, ld, importer, use, roots);
            ImportsLoaded(ld, r.at, [r.value])
    decreases |Unloaded(w, universe, ld, roots)|, 1
  {
    hide Reach, CyclesAnchored, NewFromImports, NewFrom, SourcesOk, ArenaOk, IdsValid;
    var r := LoadUse(w, universe, ld, importer, use, roots);
    var found := w.resolve(importer, use.path, roots);
    if !found.Found? {
      NothingNew(ld, r.at, "", [r.value]);
    } else {
      var target := Name(w, ld, found.path, roots);
      var ld0 := Renamed(w, ld, found.path, roots);
      RenamedInv(w, ld, found.path, roots);
      if target in ld.stack {
        NothingNew(ld, r.at, "", [r.value]);
      } else {
        NamedDescends(w, universe, ld, found.path, roots);
        LoadKeeps(w, universe, ld0, found.path, w.read(found.path), roots);
        LoadedForImport(ld0, r.at, r.value);
        FromRenamed(ld, ld0, r.at, [r.value]);
      }
    }
  }

  lemma NamedDescends(w: World, universe: set<Key>, ld: Loader, path: Path, roots: Roots)
    requires IdsValid(ld.ids)
    ensures var ld0 := Renamed(w, ld, path, roots);
            && |Unloaded(w, universe, ld0, roots)| <= |Unloaded(w, universe, ld, roots)|
            && Name(w, ld0, path, roots) == Name(w, ld, path, roots)
  {
    IdentifyKeeps(w.scoped, ld.ids, w.keyOf(path), roots);
    FewerUnloaded(w, universe, ld, Renamed(w, ld, path, roots), roots);
  }

  lemma FromRenamed(ld: Loader, ld0: Loader, at: Loader, imports: seq<Import>)
    requires ld0.modules == ld.modules && ld0.arena == ld.arena && ld0.stack == ld.stack && ld0.sources == ld.sources
    requires ImportsLoaded(ld0, at, imports)
    ensures ImportsLoaded(ld, at, imports)
  {
  }

  lemma LoadImportsKeeps(w: World, universe: set<Key>, ld: Loader, importer: Path, statements: seq<Stmt>, roots: Roots)
    requires Bounded(w, universe) && LoaderInv(ld)
    requires LoadImports(w, universe, ld, importer, statements, roots).Done?
    ensures var r := LoadImports(w, universe, ld, importer, statements, roots);
            ImportsLoaded(ld, r.at, r.value)
    decreases |Unloaded(w, universe, ld, roots)|, 2 + |statements|
  {
    if statements != [] {
      var ld0 := Polled(ld);
      FewerUnloaded(w, universe, ld, ld0, roots);
      assert LoaderInv(ld0);
      if statements[0].Other? {
        LoadImportsKeeps(w, universe, ld0, importer, statements[1..], roots);
      } else {
        LoadUseKeeps(w, universe, ld0, importer, statements[0], roots);
        var one := LoadUse(w, universe, ld0, importer, statements[0], roots);
        FewerUnloaded(w, universe, ld, one.at, roots);
        LoadImportsKeeps(w, universe, one.at, importer, statements[1..], roots);
        var rest := LoadImports(w, universe, one.at, importer, statements[1..], roots);
        JoinImports(ld0, one.at, rest.at, one.value, rest.value);
      }
    }
  }

  /** One import after another. */
  lemma JoinImports(a: Loader, b: Loader, c: Loader, first: Import, rest: seq<Import>)
    requires ImportsLoaded(a, b, [first]) && ImportsLoaded(b, c, rest)
    ensures ImportsLoaded(a, c, [first] + rest)
  {
    ProgressTrans(a, b, c);
    SettledGrows(b, c, [first]);
    var all := [first] + rest;
    assert forall i :: i in all <==> i in [first] || i in rest;
    forall m | m in c.modules && m !in a.modules ensures FromImports(c.modules, all, m) {
      if m in b.modules {
        assert FromImports(b.modules, [first], m);
        var i :| i in [first] && i.target.Some? && Reach(b.modules, i.target.value, m);
        ReachGrows(b.modules, c.modules, i.target.value, m);
        assert i in all;
      } else {
        assert FromImports(c.modules, rest, m);
        var i :| i in rest && i.target.Some? && Reach(c.modules, i.target.value, m);
        assert i in all;
      }
    }
  }
}
