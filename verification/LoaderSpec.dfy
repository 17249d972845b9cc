/** Recursive module loading as a function of the loader's state.

    The file system, the parser and the cancellation callback are fixed functions in `World`.
    A loader keeps the modules it has begun, the stack of those still being loaded, the arena of
    finished ones in order, and the sources it has added. */
module LoaderSpec {
  import opened Options
  import opened ModuleKeys

  type Bytes = seq<nat>

  datatype Code = ModuleCycle | ModuleRead | ModuleLoad | InvalidUtf8 | Syntax(n: nat)

  datatype Diagnostic = Diagnostic(code: Code, span: nat, message: string)

  /** A statement of a parsed file: an import, or anything else. */
  datatype Stmt = Use(path: seq<string>, span: nat) | Other

  datatype Resolution =
    | Standard
    | Missing
    | Found(path: Path)
    | Unreadable(message: string)

  /** `keyOf` is canonicalisation; `resolve` searches for an import of a file under module roots;
      `read` is what a file found there holds;
      `badUtf8` is where decoding fails; `parse` is the parser with recovery; `cancel` answers the
      n-th poll of the callback. */
  datatype World = World(
    scoped: bool,
    keyOf: Path -> Key,
    resolve: (Path, seq<string>, Roots) -> Resolution,
    read: Path -> Bytes,
    badUtf8: Bytes -> Option<nat>,
    parse: Bytes -> (seq<Diagnostic>, seq<Stmt>),
    overrides: map<Key, Bytes>,
    cancel: nat -> bool)

  datatype Import = Import(path: seq<string>, span: nat, target: Option<Key>, diagnostic: Option<Diagnostic>)

  datatype Module = Module(key: Key, path: Path, source: nat, text: Bytes, imports: seq<Import>,
                           diagnostics: seq<Diagnostic>, roots: Roots)

  type Modules = map<Key, Module>

  datatype Loader = Loader(modules: Modules, stack: seq<Key>, arena: seq<Key>, sources: seq<Path>, ids: Ids, polls: nat)

  datatype Outcome<+T> = Cancelled(at: Loader) | Done(at: Loader, value: T)

  function Empty(sources: seq<Path>, polls: nat): Loader {
    Loader(map[], [], [], sources, NO_IDS, polls)
  }

  /** A file that is not UTF-8 is not parsed. */
  function SourceOf(w: World, bytes: Bytes): (seq<Diagnostic>, seq<Stmt>) {
    match w.badUtf8(bytes)
    case None => w.parse(bytes)
    case Some(offset) => ([Diagnostic(InvalidUtf8, offset, "invalid UTF-8 starts here")], [])
  }

  function CycleDiagnostic(span: nat): Diagnostic {
    Diagnostic(ModuleCycle, span, "module import cycle starts here")
  }

  // ----- What makes loading end -----

  /** Every file an import can resolve to has its physical key in a finite universe. */
  ghost predicate Bounded(w: World, universe: set<Key>) {
    forall importer, path, roots ::
      w.resolve(importer, path, roots).Found? ==> w.keyOf(w.resolve(importer, path, roots).path) in universe
  }

  predicate IsLoaded(w: World, ld: Loader, phys: Key, roots: Roots) {
    Known(w.scoped, ld.ids, phys, roots).Some? && Known(w.scoped, ld.ids, phys, roots).value in ld.modules
  }

  ghost function Unloaded(w: World, universe: set<Key>, ld: Loader, roots: Roots): set<Key> {
    set p | p in universe && !IsLoaded(w, ld, p, roots)
  }

  /** Loading only adds modules and names, and leaves the stack as it found it. */
  ghost predicate Extends(ld: Loader, ld': Loader) {
    ld.modules.Keys <= ld'.modules.Keys && IdsGrow(ld.ids, ld'.ids) && ld'.stack == ld.stack
  }

  /** Loading stops at the first poll that asks for it, and only then. */
  ghost predicate Obeys(w: World, ld: Loader, ld': Loader, cancelled: bool) {
    && ld.polls <= ld'.polls
    && (cancelled ==> ld.polls < ld'.polls && w.cancel(ld'.polls - 1))
    && forall n: nat :: ld.polls <= n < ld'.polls && w.cancel(n) ==> cancelled && n == ld'.polls - 1
  }

  lemma FewerUnloaded(w: World, universe: set<Key>, ld: Loader, ld': Loader, roots: Roots)
    requires ld.modules.Keys <= ld'.modules.Keys && IdsGrow(ld.ids, ld'.ids)
    ensures Unloaded(w, universe, ld', roots) <= Unloaded(w, universe, ld, roots)
    ensures |Unloaded(w, universe, ld', roots)| <= |Unloaded(w, universe, ld, roots)|
    ensures forall p :: p in Unloaded(w, universe, ld, roots) && p !in Unloaded(w, universe, ld', roots) ==>
                          |Unloaded(w, universe, ld', roots)| < |Unloaded(w, universe, ld, roots)|
  {
    var a, b := Unloaded(w, universe, ld', roots), Unloaded(w, universe, ld, roots);
    SubsetSize(a, b);
    forall p | p in b && p !in a ensures |a| < |b| {
      SubsetSize(a, b - {p});
    }
  }

  lemma {:induction false} SubsetSize<T>(a: set<T>, b: set<T>)
    requires a <= b
    ensures |a| <= |b|
  {
    if a != {} {
      var x :| x in a;
      SubsetSize(a - {x}, b - {x});
    }
  }

  // ----- Loading -----

  function Polled(ld: Loader): Loader { ld.(polls := ld.polls + 1) }

  /** The key of a file, and the loader once it has been asked for. */
  function Name(w: World, ld: Loader, path: Path, roots: Roots): Key {
    Identify(w.scoped, ld.ids, w.keyOf(path), roots).1
  }

  function Renamed(w: World, ld: Loader, path: Path, roots: Roots): Loader {
    ld.(ids := Identify(w.scoped, ld.ids, w.keyOf(path), roots).0)
  }

  /** An edited file is read from its override. */
  function TextOf(w: World, phys: Key, bytes: Bytes): Bytes {
    if phys in w.overrides then w.overrides[phys] else bytes
  }

  function StatementsOf(w: World, path: Path, bytes: Bytes): seq<Stmt> {
    SourceOf(w, TextOf(w, w.keyOf(path), bytes)).1
  }

  /** A module that is not known yet: its source is added. */
  function WithSource(w: World, ld: Loader, path: Path, roots: Roots): Loader {
    Renamed(w, ld, path, roots).(sources := ld.sources + [path])
  }

  /** Then it enters the table without imports, and the stack. */
  function Begun(w: World, ld: Loader, path: Path, bytes: Bytes, roots: Roots): Loader {
    var key := Name(w, ld, path, roots);
    var text := TextOf(w, w.keyOf(path), bytes);
    var m := Module(key, path, |ld.sources|, text, [], SourceOf(w, text).0, roots);
    WithSource(w, ld, path, roots).(modules := ld.modules[key := m], stack := ld.stack + [key])
  }

  function Popped(ld: Loader): Loader
    requires ld.stack != []
  {
    ld.(stack := ld.stack[..|ld.stack| - 1])
  }

  /** A module leaves the stack, gets its imports and enters the arena. */
  function Finished(ld: Loader, key: Key, imports: seq<Import>): Loader
    requires ld.stack != [] && key in ld.modules
  {
    Popped(ld).(modules := ld.modules[key := ld.modules[key].(imports := imports)], arena := ld.arena + [key])
  }

  /** Beginning a module leaves fewer files unloaded. */
  lemma Beginning(w: World, universe: set<Key>, ld: Loader, begun: Loader, path: Path, roots: Roots)
    requires w.keyOf(path) in universe && Name(w, ld, path, roots) !in ld.modules
    requires begun.modules.Keys == ld.modules.Keys + {Name(w, ld, path, roots)}
    requires begun.ids == Renamed(w, ld, path, roots).ids
    ensures |Unloaded(w, universe, begun, roots)| < |Unloaded(w, universe, ld, roots)|
  {
    assert w.keyOf(path) in Unloaded(w, universe, ld, roots) && w.keyOf(path) !in Unloaded(w, universe, begun, roots);
    FewerUnloaded(w, universe, ld, begun, roots);
  }

  function Load(w: World, ghost universe: set<Key>, ld: Loader, path: Path, bytes: Bytes, roots: Roots)
    : (r: Outcome<Key>)
    requires Bounded(w, universe) && w.keyOf(path) in universe
    ensures Extends(ld, r.at) && Obeys(w, ld, r.at, r.Cancelled?)
    decreases |Unloaded(w, universe, ld, roots)|, 0
  {
    var once, twice := Polled(ld), Polled(Polled(ld));
    var key := Name(w, ld, path, roots);
    if w.cancel(ld.polls) then Cancelled(once)
    else if key in ld.modules then Done(Renamed(w, once, path, roots), key)
    else if w.cancel(once.polls) then Cancelled(WithSource(w, twice, path, roots))
    else
      var begun := Begun(w, twice, path, bytes, roots);
      Beginning(w, universe, ld, begun, path, roots);
      match LoadImports(w, universe, begun, path, StatementsOf(w, path, bytes), roots)
      case Cancelled(at) => Cancelled(Popped(at))
      case Done(at, imports) => Done(Finished(at, key, imports), key)
  }

  /** One import statement. */
  function LoadUse(w: World, ghost universe: set<Key>, ld: Loader, importer: Path, use: Stmt, roots: Roots)
    : (r: Outcome<Import>)
    requires Bounded(w, universe) && use.Use?
    ensures Extends(ld, r.at) && Obeys(w, ld, r.at, r.Cancelled?)
    decreases |Unloaded(w, universe, ld, roots)|, 1
  {
    match w.resolve(importer, use.path, roots)
    case Standard => Done(ld, Import(use.path, use.span, None, None))
    case Missing => Done(ld, Import(use.path, use.span, None, None))
    case Unreadable(message) =>
      Done(ld, Import(use.path, use.span, None, Some(Diagnostic(ModuleRead, use.span, message))))
    case Found(path) =>
      var target := Name(w, ld, path, roots);
      var ld0 := Renamed(w, ld, path, roots);
      if target in ld.stack then
        Done(ld0, Import(use.path, use.span, Some(target), Some(CycleDiagnostic(use.span))))
      else
        FewerUnloaded(w, universe, ld, ld0, roots);
        match Load(w, universe, ld0, path, w.read(path), roots)
        case Cancelled(at) => Cancelled(at)
        case Done(at, _) => Done(at, Import(use.path, use.span, Some(target), None))
  }

  function LoadImports(w: World, ghost universe: set<Key>, ld: Loader, importer: Path, statements: seq<Stmt>,
                       roots: Roots)
    : (r: Outcome<seq<Import>>)
    requires Bounded(w, universe)
    ensures Extends(ld, r.at) && Obeys(w, ld, r.at, r.Cancelled?)
    decreases |Unloaded(w, universe, ld, roots)|, 2 + |statements|
  {
    if statements == [] then Done(ld, [])
    else
      var ld0 := Polled(ld);
      if w.cancel(ld.polls) then Cancelled(ld0)
      else if statements[0].Other? then
        FewerUnloaded(w, universe, ld, ld0, roots);
        LoadImports(w, universe, ld0, importer, statements[1..], roots)
      else
        FewerUnloaded(w, universe, ld, ld0, roots);
        match LoadUse(w, universe, ld0, importer, statements[0], roots)
        case Cancelled(at) => Cancelled(at)
        case Done(at, import_) =>
          FewerUnloaded(w, universe, ld, at, roots);
          match LoadImports(w, universe, at, importer, statements[1..], roots)
          case Cancelled(at') => Cancelled(at')
          case Done(at', rest) => Done(at', [import_] + rest)
  }
}
