/** What the recorded graph says about the files: every module's imports are exactly what the
    resolver answers for its `use` statements, in order. */
module LoaderRecords {
  import opened Options
  import opened ModuleKeys
  import opened LoaderSpec
  import opened LoaderGraph

  function Uses(statements: seq<Stmt>): (uses: seq<Stmt>)
    ensures forall u :: u in uses ==> u.Use?
  {
    if statements == [] then []
    else (if statements[0].Use? then [statements[0]] else []) + Uses(statements[1..])
  }

  /** The record of one `use` of a file under some module roots. */
  predicate Faithful(w: World, ids: Ids, importer: Path, roots: Roots, use: Stmt, i: Import)
    requires use.Use?
  {
    && i.path == use.path && i.span == use.span
    && match w.resolve(importer, use.path, roots)
       case Standard => i.target.None? && i.diagnostic.None?
       case Missing => i.target.None? && i.diagnostic.None?
       case Unreadable(message) =>
         i.target.None? && i.diagnostic == Some(Diagnostic(ModuleRead, use.span, message))
       case Found(path) =>
         && i.target.Some? && i.target == Known(w.scoped, ids, w.keyOf(path), roots)
         && i.diagnostic in {None, Some(CycleDiagnostic(use.span))}
  }

  predicate Recorded(w: World, ids: Ids, importer: Path, roots: Roots, uses: seq<Stmt>, imports: seq<Import>)
    requires forall u :: u in uses ==> u.Use?
  {
    |imports| == |uses| && forall j :: 0 <= j < |uses| ==> Faithful(w, ids, importer, roots, uses[j], imports[j])
  }

  /** Files whose bytes the caller handed over. */
  type Given = set<(Path, Bytes)>

  predicate Supplied(w: World, given: Given, path: Path, bytes: Bytes) {
    bytes == w.read(path) || (path, bytes) in given
  }

  /** The text of a module is what its file holds, or what the caller says it holds, unless an
      override replaces it. */
  predicate TextIsRead(w: World, given: Given, m: Module) {
    if w.keyOf(m.path) in w.overrides then m.text == w.overrides[w.keyOf(m.path)]
    else Supplied(w, given, m.path, m.text)
  }

  /** A text that is not UTF-8 has one diagnostic, where decoding fails, and no imports; any other has the
      parser's diagnostics, and an import for each `use` the parser finds. */
  predicate ModuleRecorded(w: World, given: Given, ids: Ids, m: Module) {
    && Known(w.scoped, ids, w.keyOf(m.path), m.roots) == Some(m.key)
    && TextIsRead(w, given, m)
    && if w.badUtf8(m.text).Some? then
         && m.imports == []
         && |m.diagnostics| == 1 && m.diagnostics[0].code == InvalidUtf8
         && m.diagnostics[0].span == w.badUtf8(m.text).value
       else
         && m.diagnostics == w.parse(m.text).0
         && Recorded(w, ids, m.path, m.roots, Uses(w.parse(m.text).1), m.imports)
  }

  /** Every module that has finished loading is recorded as its file is. */
  ghost predicate AllRecorded(w: World, given: Given, ld: Loader) {
    forall k :: k in ld.modules && k !in ld.stack ==> ModuleRecorded(w, given, ld.ids, ld.modules[k])
  }

  lemma AllRecordedGrows(w: World, given: Given, ld: Loader, ld': Loader)
    requires AllRecorded(w, given, ld) && IdsGrow(ld.ids, ld'.ids)
    requires forall k :: k in ld'.modules && k !in ld'.stack ==>
               k in ld.modules && k !in ld.stack && ld'.modules[k] == ld.modules[k]
    ensures AllRecorded(w, given, ld')
  {
  }

  lemma BeginRecords(w: World, given: Given, ld: Loader, path: Path, bytes: Bytes, roots: Roots)
    requires LoaderInv(ld) && AllRecorded(w, given, ld) && Name(w, ld, path, roots) !in ld.modules
    requires Supplied(w, given, path, bytes)
    ensures AllRecorded(w, given, Begun(w, Polled(Polled(ld)), path, bytes, roots))
    ensures Known(w.scoped, Begun(w, Polled(Polled(ld)), path, bytes, roots).ids, w.keyOf(path), roots)
            == Some(Name(w, ld, path, roots))
  {
    hide AllRecorded;
    IdentifyKeeps(w.scoped, ld.ids, w.keyOf(path), roots);
    var begun, key := Begun(w, Polled(Polled(ld)), path, bytes, roots), Name(w, ld, path, roots);
    assert begun.stack[|ld.stack|] == key && forall i :: 0 <= i < |ld.stack| ==> begun.stack[i] == ld.stack[i];
    AllRecordedGrows(w, given, ld, begun);
  }

  /** The module that finishes was begun as its file says, and has its file's imports. */
  lemma FinishRecords(w: World, given: Given, begun: Loader, at: Loader, key: Key, imports: seq<Import>)
    requires LoaderInv(at) && AllRecorded(w, given, at) && Progress(begun, at) && IdsGrow(begun.ids, at.ids)
    requires begun.stack != [] && begun.stack[|begun.stack| - 1] == key && key in begun.modules
    requires ModuleRecorded(w, given, at.ids, begun.modules[key].(imports := imports))
    ensures AllRecorded(w, given, Finished(at, key, imports))
  {
    hide ModuleRecorded, ArenaOk, SourcesOk, IdsValid;
    var done := Finished(at, key, imports);
    forall k | k in done.modules && k !in done.stack ensures ModuleRecorded(w, given, done.ids, done.modules[k]) {
      if k == key {
        assert done.modules[k] == begun.modules[k].(imports := imports);
      } else {
        assert forall i :: 0 <= i < |done.stack| ==> at.stack[i] == done.stack[i];
        assert k !in at.stack;
      }
    }
  }

  lemma LoadRecords(w: World, given: Given, universe: set<Key>, ld: Loader, path: Path, bytes: Bytes, roots: Roots)
    requires Bounded(w, universe) && w.keyOf(path) in universe && LoaderInv(ld) && AllRecorded(w, given, ld)
    requires Load(w, universe, ld, path, bytes, roots).Done?
    requires Supplied(w, given, path, bytes)
    ensures var r := Load(w, universe, ld, path, bytes, roots);
            AllRecorded(w, given, r.at) && Known(w.scoped, r.at.ids, w.keyOf(path), roots) == Some(r.value)
    decreases |Unloaded(w, universe, ld, roots)|, 0
  {
    hide LoaderInv, AllRecorded, JustBegun, Unloaded, Bounded, Recorded, Identify;
    var r := Load(w, universe, ld, path, bytes, roots);
    var key := Name(w, ld, path, roots);
    if key in ld.modules {
      NameRecords(w, given, ld, path, roots, ld.polls + 1);
    } else {
      BeginKeeps(w, universe, ld, path, bytes, roots);
      BeginRecords(w, given, ld, path, bytes, roots);
      var begun, statements := Begun(w, Polled(Polled(ld)), path, bytes, roots), StatementsOf(w, path, bytes);
      LoadImportsRecords(w, given, universe, begun, path, statements, roots);
      LoadImportsKeeps(w, universe, begun, path, statements, roots);
      var done := LoadImports(w, universe, begun, path, statements, roots);
      assert ModuleRecorded(w, given, done.at.ids, begun.modules[key].(imports := done.value));
      FinishRecords(w, given, begun, done.at, key, done.value);
    }
  }

  lemma NameRecords(w: World, given: Given, ld: Loader, path: Path, roots: Roots, polls: nat)
    requires LoaderInv(ld) && AllRecorded(w, given, ld)
    ensures var ld' := Renamed(w, ld.(polls := polls), path, roots);
            && AllRecorded(w, given, ld') && LoaderInv(ld')
            && Known(w.scoped, ld'.ids, w.keyOf(path), roots) == Some(Name(w, ld, path, roots))
  {
    hide AllRecorded;
    PolledInv(ld, polls);
    RenamedInv(w, ld.(polls := polls), path, roots);
    IdentifyKeeps(w.scoped, ld.ids, w.keyOf(path), roots);
    AllRecordedGrows(w, given, ld, Renamed(w, ld.(polls := polls), path, roots));
  }

  lemma LoadUseRecords(w: World, given: Given, universe: set<Key>, ld: Loader, importer: Path, use: Stmt, roots: Roots)
    requires Bounded(w, universe) && use.Use? && LoaderInv(ld) && AllRecorded(w, given, ld)
    requires LoadUse(w, universe, ld, importer, use, roots).Done?
    ensures var r := LoadUse(w, universe, ld, importer, use, roots);
            AllRecorded(w, given, r.at) && Faithful(w, r.at.ids, importer, roots, use, r.value)
    decreases |Unloaded(w, universe, ld, roots)|, 1
  {
    hide AllRecorded, Identify, IdsValid, StackOk, ArenaOk, SourcesOk;
    var found := w.resolve(importer, use.path, roots);
    if found.Found? {
      NameRecords(w, given, ld, found.path, roots, ld.polls);
      var ld0 := Renamed(w, ld, found.path, roots);
      if Name(w, ld, found.path, roots) !in ld.stack {
        NamedDescends(w, universe, ld, found.path, roots);
        LoadRecords(w, given, universe, ld0, found.path, w.read(found.path), roots);
        LoadKeeps(w, universe, ld0, found.path, w.read(found.path), roots);
      }
    }
  }

  lemma PolledRecords(w: World, given: Given, universe: set<Key>, ld: Loader, roots: Roots)
    requires LoaderInv(ld) && AllRecorded(w, given, ld)
    ensures LoaderInv(Polled(ld)) && AllRecorded(w, given, Polled(ld))
    ensures |Unloaded(w, universe, Polled(ld), roots)| <= |Unloaded(w, universe, ld, roots)|
  {
    hide ModuleRecorded;
    PolledInv(ld, ld.polls + 1);
    FewerUnloaded(w, universe, ld, Polled(ld), roots);
  }

  lemma JoinRecords(w: World, ids: Ids, ids': Ids, importer: Path, roots: Roots, statements: seq<Stmt>, first: Import,
                    rest: seq<Import>)
    requires IdsGrow(ids, ids') && statements != [] && statements[0].Use?
    requires Faithful(w, ids, importer, roots, statements[0], first)
    requires Recorded(w, ids', importer, roots, Uses(statements[1..]), rest)
    ensures Recorded(w, ids', importer, roots, Uses(statements), [first] + rest)
  {
  }

  lemma LoadImportsRecords(w: World, given: Given, universe: set<Key>, ld: Loader, importer: Path,
                           statements: seq<Stmt>, roots: Roots)
    requires Bounded(w, universe) && LoaderInv(ld) && AllRecorded(w, given, ld)
    requires LoadImports(w, universe, ld, importer, statements, roots).Done?
    ensures var r := LoadImports(w, universe, ld, importer, statements, roots);
            AllRecorded(w, given, r.at) && Recorded(w, r.at.ids, importer, roots, Uses(statements), r.value)
    decreases |Unloaded(w, universe, ld, roots)|, 2 + |statements|
  {
    if statements == [] {
    } else {
      hide LoaderInv, AllRecorded, Recorded, Faithful, Progress, CyclesAnchored, NewFromImports, AllSettled,
           CyclesOnStack, Unloaded, IdsGrow, Bounded;
      var ld0 := Polled(ld);
      PolledRecords(w, given, universe, ld, roots);
      if statements[0].Other? {
        LoadImportsRecords(w, given, universe, ld0, importer, statements[1..], roots);
      } else {
        LoadUseRecords(w, given, universe, ld0, importer, statements[0], roots);
        LoadUseKeeps(w, universe, ld0, importer, statements[0], roots);
        var one := LoadUse(w, universe, ld0, importer, statements[0], roots);
        FewerUnloaded(w, universe, ld, one.at, roots);
        LoadImportsRecords(w, given, universe, one.at, importer, statements[1..], roots);
        var rest := LoadImports(w, universe, one.at, importer, statements[1..], roots);
        JoinRecords(w, one.at.ids, rest.at.ids, importer, roots, statements, one.value, rest.value);
      }
    }
  }
}
