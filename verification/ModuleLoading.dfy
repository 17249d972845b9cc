/** The loader as an object that is updated in place. */
module ModuleLoading {
  import opened Options
  import opened ModuleKeys
  import opened LoaderSpec

  /** Records already made, in front of those still to come. */
  function After(imports: seq<Import>, rest: Outcome<seq<Import>>): Outcome<seq<Import>> {
    match rest
    case Cancelled(at) => Cancelled(at)
    case Done(at, more) => Done(at, imports + more)
  }

  /** A loader with one more module in its table, on its stack and among its sources. */
  function Opened(w: World, ld: Loader, key: Key, m: Module): Loader {
    Loader(ld.modules[key := m], ld.stack + [key], ld.arena, ld.sources + [m.path],
           Identify(w.scoped, ld.ids, w.keyOf(m.path), m.roots).0, ld.polls + 2)
  }

  class ModuleLoader {
    var sources: seq<Path>
    var arena: seq<Key>
    var modules: Modules
    var stack: seq<Key>
    var primaryContexts: map<Key, Roots>
    var contextualModules: map<(Key, Roots), Key>
    var contextIds: map<Roots, nat>
    var nextContextId: nat
    var polls: nat

    ghost function State(): Loader
      reads this
    {
      Loader(modules, stack, arena, sources, Ids(primaryContexts, contextualModules, contextIds, nextContextId), polls)
    }

    constructor (sources: seq<Path>, polls: nat)
      ensures State() == Empty(sources, polls)
    {
      this.sources, this.polls := sources, polls;
      arena, modules, stack := [], map[], [];
      primaryContexts, contextualModules, contextIds, nextContextId := map[], map[], map[], 1;
    }

    method CheckCancellation(w: World) returns (cancelled: bool)
      modifies `polls
      ensures cancelled == w.cancel(old(polls)) && State() == Polled(old(State()))
    {
      cancelled := w.cancel(polls);
      polls := polls + 1;
    }

    method IdentityKey(scoped: bool, phys: Key, roots: Roots) returns (key: Key)
      modifies `primaryContexts, `contextualModules, `contextIds, `nextContextId
      ensures State() == old(State()).(ids := Identify(scoped, old(State()).ids, phys, roots).0)
      ensures key == Identify(scoped, old(State()).ids, phys, roots).1
    {
      if !scoped {
        return phys;
      }
      if (phys, roots) in contextualModules {
        return contextualModules[(phys, roots)];
      }
      if phys in primaryContexts {
        var id;
        if roots in contextIds {
          id := contextIds[roots];
          assert contextIds[roots := id] == contextIds;
        } else {
          id := nextContextId;
          nextContextId := nextContextId + 1;
          contextIds := contextIds[roots := id];
        }
        key := ContextKey(phys, id);
      } else {
        primaryContexts := primaryContexts[phys := roots];
        key := phys;
      }
      contextualModules := contextualModules[(phys, roots) := key];
    }

    method LoadWithCancellation(w: World, ghost universe: set<Key>, path: Path, bytes: Bytes, roots: Roots)
      returns (r: Option<Key>)
      requires Bounded(w, universe) && w.keyOf(path) in universe
      modifies this
      ensures var spec := Load(w, universe, old(State()), path, bytes, roots);
              State() == spec.at && r == if spec.Done? then Some(spec.value) else None
      decreases |Unloaded(w, universe, State(), roots)|, 1
    {
      hide Unloaded, Identify, SourceOf, Obeys, IdsGrow, Load, LoadImports, Bounded, Finished, Opened;
      ghost var start := State();
      LoadStages(w, universe, start, path, bytes, roots);
      var cancelled := CheckCancellation(w);
      if cancelled {
        return None;
      }
      var phys := w.keyOf(path);
      var key := IdentityKey(w.scoped, phys, roots);
      NameIs(w, start, path, roots, State());
      if key in modules {
        return Some(key);
      }
      var text := if phys in w.overrides then w.overrides[phys] else bytes;
      var source := |sources|;
      sources := sources + [path];
      var (diagnostics, statements) := SourceOf(w, text);
      cancelled := CheckCancellation(w);
      WithSourceIs(w, start, path, roots, State());
      if cancelled {
        return None;
      }
      r := LoadParsed(w, universe, start, key, Module(key, path, source, text, [], diagnostics, roots), statements);
    }

    /** The part of a load between the two stack operations. */
    method LoadParsed(w: World, ghost universe: set<Key>, ghost start: Loader, key: Key, m: Module,
                      statements: seq<Stmt>)
      returns (r: Option<Key>)
      requires Bounded(w, universe) && w.keyOf(m.path) in universe
      requires key == Name(w, start, m.path, m.roots) && key !in start.modules
      requires State() == WithSource(w, Polled(Polled(start)), m.path, m.roots)
      requires m == Module(key, m.path, |start.sources|, m.text, [], m.diagnostics, m.roots)
      requires (m.diagnostics, statements) == SourceOf(w, m.text)
      modifies this
      ensures var spec := LoadImports(w, universe, Opened(w, start, key, m), m.path, statements, m.roots);
              if spec.Done? then State() == Finished(spec.at, key, spec.value) && r == Some(key)
              else State() == Popped(spec.at) && r == None
      decreases |Unloaded(w, universe, start, m.roots)|, 0
    {
      hide Unloaded, Identify, SourceOf, Obeys, IdsGrow, LoadImports, Bounded;
      modules := modules[key := m];
      stack := stack + [key];
      Beginning(w, universe, start, State(), m.path, m.roots);
      var imports := LoadImportsWithCancellation(w, universe, m.path, statements, m.roots);
      assert stack == start.stack + [key] && key in modules;
      stack := stack[..|stack| - 1];
      if imports.None? {
        return None;
      }
      modules := modules[key := modules[key].(imports := imports.value)];
      arena := arena + [key];
      return Some(key);
    }

    method LoadImportsWithCancellation(w: World, ghost universe: set<Key>, importer: Path, statements: seq<Stmt>,
                                       roots: Roots)
      returns (r: Option<seq<Import>>)
      requires Bounded(w, universe)
      modifies this
      ensures var spec := LoadImports(w, universe, old(State()), importer, statements, roots);
              State() == spec.at && r == if spec.Done? then Some(spec.value) else None
      decreases |Unloaded(w, universe, State(), roots)|, 3
    {
      hide LoadImports, LoadUse, Unloaded, Obeys;
      ghost var start := State();
      var imports: seq<Import> := [];
      var n := 0;
      AfterNothing(LoadImports(w, universe, start, importer, statements, roots));
      assert statements[0..] == statements;
      while n < |statements|
        invariant 0 <= n <= |statements|
        invariant Extends(start, State())
        invariant LoadImports(w, universe, start, importer, statements, roots) ==
                  After(imports, LoadImports(w, universe, State(), importer, statements[n..], roots))
      {
        ImportStages(w, universe, State(), importer, statements[n..], roots);
        assert statements[n..][1..] == statements[n + 1..];
        var cancelled := CheckCancellation(w);
        if cancelled {
          return None;
        }
        if statements[n].Use? {
          FewerUnloaded(w, universe, start, State(), roots);
          var i := LoadUseWithCancellation(w, universe, importer, statements[n], roots);
          if i.None? {
            return None;
          }
          AfterOne(imports, i.value, LoadImports(w, universe, State(), importer, statements[n + 1..], roots));
          imports := imports + [i.value];
        }
        n := n + 1;
      }
      assert statements[n..] == [];
      NoMoreImports(w, universe, State(), importer, imports, roots);
      return Some(imports);
    }

    method LoadUseWithCancellation(w: World, ghost universe: set<Key>, importer: Path, use: Stmt, roots: Roots)
      returns (r: Option<Import>)
      requires Bounded(w, universe) && use.Use?
      modifies this
      ensures var spec := LoadUse(w, universe, old(State()), importer, use, roots);
              State() == spec.at && r == if spec.Done? then Some(spec.value) else None
      decreases |Unloaded(w, universe, State(), roots)|, 2
    {
      ghost var start := State();
      var target, diagnostic := None, None;
      match w.resolve(importer, use.path, roots) {
        case Standard =>
        case Missing =>
        case Unreadable(message) =>
          diagnostic := Some(Diagnostic(ModuleRead, use.span, message));
        case Found(path) =>
          var key := IdentityKey(w.scoped, w.keyOf(path), roots);
          if key in stack {
            diagnostic := Some(CycleDiagnostic(use.span));
          } else {
            FewerUnloaded(w, universe, start, State(), roots);
            var loaded := LoadWithCancellation(w, universe, path, w.read(path), roots);
            if loaded.None? {
              return None;
            }
          }
          target := Some(key);
      }
      return Some(Import(use.path, use.span, target, diagnostic));
    }
  }

  /** The ways a load can go. */
  lemma LoadStages(w: World, universe: set<Key>, ld: Loader, path: Path, bytes: Bytes, roots: Roots)
    requires Bounded(w, universe) && w.keyOf(path) in universe
    ensures var key, text := Name(w, ld, path, roots), TextOf(w, w.keyOf(path), bytes);
            var m := Module(key, path, |ld.sources|, text, [], SourceOf(w, text).0, roots);
            Load(w, universe, ld, path, bytes, roots) ==
              if w.cancel(ld.polls) then Cancelled(Polled(ld))
              else if key in ld.modules then Done(Renamed(w, Polled(ld), path, roots), key)
              else if w.cancel(ld.polls + 1) then Cancelled(WithSource(w, Polled(Polled(ld)), path, roots))
              else
                var r := LoadImports(w, universe, Opened(w, ld, key, m), path, SourceOf(w, text).1, roots);
                if r.Cancelled? then Cancelled(Popped(r.at)) else Done(Finished(r.at, key, r.value), key)
  {
    hide LoadImports, Unloaded, SourceOf, Identify, IdsGrow, Obeys;
    var key, text := Name(w, ld, path, roots), TextOf(w, w.keyOf(path), bytes);
    assert Begun(w, Polled(Polled(ld)), path, bytes, roots) ==
           Opened(w, ld, key, Module(key, path, |ld.sources|, text, [], SourceOf(w, text).0, roots));
  }

  lemma NameIs(w: World, start: Loader, path: Path, roots: Roots, st: Loader)
    requires st == Polled(start).(ids := Identify(w.scoped, start.ids, w.keyOf(path), roots).0)
    ensures st == Renamed(w, Polled(start), path, roots)
    ensures Name(w, start, path, roots) == Identify(w.scoped, start.ids, w.keyOf(path), roots).1
  {
  }

  lemma WithSourceIs(w: World, start: Loader, path: Path, roots: Roots, st: Loader)
    requires st == Polled(Renamed(w, Polled(start), path, roots).(sources := start.sources + [path]))
    ensures st == WithSource(w, Polled(Polled(start)), path, roots)
  {
  }

  lemma AfterNothing(r: Outcome<seq<Import>>)
    ensures After([], r) == r
  {
    if r.Done? {
      assert [] + r.value == r.value;
    }
  }

  lemma AfterOne(imports: seq<Import>, i: Import, r: Outcome<seq<Import>>)
    ensures After(imports, After([i], r)) == After(imports + [i], r)
  {
    if r.Done? {
      assert imports + ([i] + r.value) == imports + [i] + r.value;
    }
  }

  lemma NoMoreImports(w: World, universe: set<Key>, ld: Loader, importer: Path, imports: seq<Import>, roots: Roots)
    requires Bounded(w, universe)
    ensures After(imports, LoadImports(w, universe, ld, importer, [], roots)) == Done(ld, imports)
  {
    assert imports + [] == imports;
  }

  /** The ways the first of several statements can go. */
  lemma ImportStages(w: World, universe: set<Key>, ld: Loader, importer: Path, statements: seq<Stmt>, roots: Roots)
    requires Bounded(w, universe) && statements != []
    ensures LoadImports(w, universe, ld, importer, statements, roots) ==
              if w.cancel(ld.polls) then Cancelled(Polled(ld))
              else if statements[0].Other? then LoadImports(w, universe, Polled(ld), importer, statements[1..], roots)
              else
                var r := LoadUse(w, universe, Polled(ld), importer, statements[0], roots);
                if r.Cancelled? then Cancelled(r.at)
                else After([r.value], LoadImports(w, universe, r.at, importer, statements[1..], roots))
  {
  }
}
