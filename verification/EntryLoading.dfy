/** The two entry loaders: one entry on its own, and several entries that share their imports. */
module EntryLoading {
  import opened Options
  import opened ModuleKeys
  import opened LoaderSpec
  import opened LoaderRecords
  import opened LoaderSession
  import opened LoaderTheorems
  import opened LoaderAgreement
  import opened LoaderGraph
  import opened LoaderPolls
  import opened RuntimeLoading
  import opened RuntimeTheorems
  import opened EntryTheorems
  import opened ModuleLoading

  /** `importer` is the file imports are resolved from: the entry, or what it links to. */
  datatype EntryInput = EntryInput(file: Path, importer: Path, bytes: Bytes, roots: Roots)

  /** An entry's statements, its user modules in load order, and what is wrong with them. */
  datatype Program = Program(sources: seq<Path>, statements: seq<Stmt>, modules: seq<Key>, diagnostics: seq<Diagnostic>)

  /** After some polls: the callback has asked to stop exactly if loading stopped, at its last poll. */
  ghost predicate Heeds(w: World, polls: nat, cancelled: bool) {
    && (cancelled ==> polls > 0 && w.cancel(polls - 1))
    && forall n: nat :: n < polls && w.cancel(n) ==> cancelled && n == polls - 1
  }

  lemma OneMorePoll(w: World, polls: nat)
    requires Heeds(w, polls, false)
    ensures Heeds(w, polls + 1, w.cancel(polls))
  {
  }

  lemma PollsOfLoad(w: World, a: Loader, b: Loader, cancelled: bool)
    requires Heeds(w, a.polls, false) && Obeys(w, a, b, cancelled)
    ensures Heeds(w, b.polls, cancelled)
  {
  }

  lemma StartsObeying(w: World, ld: Loader)
    ensures Obeys(w, ld, ld, false)
  {
  }

  lemma ObeysOn(w: World, a: Loader, b: Loader, c: Loader, cancelled: bool)
    requires Obeys(w, a, b, false) && Obeys(w, b, c, cancelled)
    ensures Obeys(w, a, c, cancelled)
  {
  }

  predicate Parses(w: World, input: EntryInput) { SourceOf(w, input.bytes).0 == [] }

  /** An entry that did not parse loads no imports. */
  function RequestFor(w: World, input: EntryInput): Request {
    Entry(input.importer, if Parses(w, input) then SourceOf(w, input.bytes).1 else [], input.roots)
  }

  function RequestsFor(w: World, inputs: seq<EntryInput>): (r: seq<Request>)
    ensures |r| == |inputs| && forall j :: 0 <= j < |r| ==> r[j] == RequestFor(w, inputs[j])
  {
    if inputs == [] then [] else [RequestFor(w, inputs[0])] + RequestsFor(w, inputs[1..])
  }

  function FilesOf(inputs: seq<EntryInput>): seq<Path> { seq(|inputs|, i requires 0 <= i < |inputs| => inputs[i].file) }

  /** The diagnostics of an entry: its own, or those of its imports. */
  ghost predicate EntryReport(w: World, ld: Loader, input: EntryInput, answer: Answer, diagnostics: seq<Diagnostic>) {
    && answer.EntryImports? && Closed(ld.modules) && TargetsIn(ld.modules, answer.imports)
    && diagnostics == SourceOf(w, input.bytes).0 + Visited(ld.modules, answer.imports, {}).1
  }

  /** A program is the result of loading its entry in a fresh loader. */
  ghost predicate IsProgram(w: World, universe: set<Key>, input: EntryInput, p: Program) {
    && p.statements == SourceOf(w, input.bytes).1
    && if !Parses(w, input) then
         p.sources == [input.file] && p.modules == [] && p.diagnostics == SourceOf(w, input.bytes).0
       else
         exists ld: Loader, answer: Answer ::
           && Outcomes(w, universe, [input.file], [RequestFor(w, input)], ld, [answer])
           && EntryReport(w, ld, input, answer, p.diagnostics)
           && p.modules == Retained(ld.arena, Visited(ld.modules, answer.imports, {}).0) && p.sources == ld.sources
  }

  /** How often the callback is asked while an entry is loaded: once if the text is not UTF-8; otherwise
      before and after it is parsed, for everything that is loaded, and at the end. */
  ghost predicate IsPollCount(w: World, universe: set<Key>, input: EntryInput, polls: nat) {
    if w.badUtf8(input.bytes).Some? then polls == 1
    else if w.parse(input.bytes).0 != [] then polls == 3
    else
      forall ld: Loader, answer: Answer ::
        Outcomes(w, universe, [input.file], [RequestFor(w, input)], ld, [answer]) ==>
          polls >= 3 && Takes(w, input, ld, answer, polls - 3)
  }

  /** So many polls: one for each of the entry's statements, one for each file they ask for, and those for
      every module. */
  ghost predicate Takes(w: World, input: EntryInput, ld: Loader, answer: Answer, polls: nat) {
    && answer.EntryImports? && (forall k :: k in ld.arena ==> k in ld.modules)
    && polls == |w.parse(input.bytes).1| + Clean(answer.imports) + PollsFor(w, ld.modules, ld.arena)
  }

  /** From an empty loader on, requests are answered with so many polls. */
  lemma {:induction false} PollsOfOutcome(w: World, universe: set<Key>, sources: seq<Path>, polls: nat,
                                          requests: seq<Request>, ld: Loader, answers: seq<Answer>)
    requires Bounded(w, universe) && forall q :: q in requests ==> InUniverse(w, universe, q)
    requires Serve(w, universe, Empty(sources, polls), requests) == Done(ld, answers)
    ensures |answers| == |requests| && forall k :: k in ld.arena ==> k in ld.modules
    ensures ld.polls == polls + PollsToServeAll(requests, answers) + PollsFor(w, ld.modules, ld.arena)
  {
    ServePolls(w, universe, Empty(sources, polls), requests);
    assert ld.arena[0..] == ld.arena;
  }

  /** The number of polls of one outcome is that of all. */
  lemma {:induction false} PollsOfEntry(w: World, universe: set<Key>, input: EntryInput, ld: Loader,
                                        imports: seq<Import>)
    requires Bounded(w, universe) && Parses(w, input)
    requires LoadImports(w, universe, Empty([input.file], 2), input.importer, SourceOf(w, input.bytes).1, input.roots)
             == Done(ld, imports)
    ensures IsPollCount(w, universe, input, ld.polls + 1)
  {
    hide LoadImports, Bounded, Outcomes, PollsFor, Clean, Serve;
    var request, answer := RequestFor(w, input), EntryImports(imports);
    OneEntry(w, universe, input, ld, imports);
    OneEntryServed(w, universe, input, ld, imports);
    PollsOfOutcome(w, universe, [input.file], 2, [request], ld, [answer]);
    PollsForOne(request, answer);
    assert w.badUtf8(input.bytes).None? && w.parse(input.bytes).0 == [];
    assert request == Entry(input.importer, w.parse(input.bytes).1, input.roots);
    assert Takes(w, input, ld, answer, ld.polls - 2);
    forall ld': Loader, answer': Answer |
      Outcomes(w, universe, [input.file], [RequestFor(w, input)], ld', [answer'])
      ensures Takes(w, input, ld', answer', ld.polls - 2)
    {
      OutcomesAgree(w, universe, [input.file], [request], ld, [answer], ld', [answer']);
      assert [answer][0] == [answer'][0];
    }
  }

  lemma PollsForOne(request: Request, answer: Answer)
    ensures PollsToServeAll([request], [answer]) == PollsToServe(request, answer)
  {
    assert [request][1..] == [] && [answer][1..] == [];
  }

  lemma OneEntryServed(w: World, universe: set<Key>, input: EntryInput, ld: Loader, imports: seq<Import>)
    requires Bounded(w, universe) && Parses(w, input)
    requires LoadImports(w, universe, Empty([input.file], 2), input.importer, SourceOf(w, input.bytes).1, input.roots)
             == Done(ld, imports)
    ensures Serve(w, universe, Empty([input.file], 2), [RequestFor(w, input)]) == Done(ld, [EntryImports(imports)])
  {
    hide LoadImports, Bounded;
    var request, answer := RequestFor(w, input), EntryImports(imports);
    assert Serve(w, universe, ld, []) == Done(ld, []);
    assert [request][1..] == [] && [answer] + [] == [answer];
  }

  method LoadEntry(w: World, ghost universe: set<Key>, input: EntryInput) returns (r: Option<Program>, polls: nat)
    requires Bounded(w, universe) && !w.scoped
    ensures Heeds(w, polls, r.None?)
    ensures r.Some? ==> IsProgram(w, universe, input, r.value) && IsPollCount(w, universe, input, polls)
  {
    hide Outcomes, Visited, LoadImports, Clean, PollsFor;
    if w.cancel(0) {
      return None, 1;
    }
    if w.badUtf8(input.bytes).Some? {
      return Some(Program([input.file], [], [], SourceOf(w, input.bytes).0)), 1;
    }
    var (diagnostics, statements) := w.parse(input.bytes);
    if w.cancel(1) {
      return None, 2;
    }
    var loader := new ModuleLoader([input.file], 2);
    var walker := new Walker();
    if diagnostics == [] {
      var imports := loader.LoadImportsWithCancellation(w, universe, input.importer, statements, input.roots);
      if imports.None? {
        return None, loader.polls;
      }
      OneEntry(w, universe, input, loader.State(), imports.value);
      PollsOfEntry(w, universe, input, loader.State(), imports.value);
      walker.Visit(imports.value, loader.modules);
      diagnostics := diagnostics + walker.diagnostics;
      assert EntryReport(w, loader.State(), input, EntryImports(imports.value), diagnostics);
    }
    polls := loader.polls + 1;
    if w.cancel(loader.polls) {
      return None, polls;
    }
    var kept := Retain(loader.arena, walker.loaded);
    return Some(Program(loader.sources, statements, kept, diagnostics)), polls;
  }

  method Retain(arena: seq<Key>, loaded: set<Key>) returns (kept: seq<Key>)
    ensures kept == Retained(arena, loaded)
  {
    kept := [];
    var n := 0;
    assert [] + Retained(arena, loaded) == Retained(arena, loaded) && arena[0..] == arena;
    while n < |arena|
      invariant 0 <= n <= |arena| && Retained(arena, loaded) == kept + Retained(arena[n..], loaded)
    {
      assert arena[n..][1..] == arena[n + 1..];
      ghost var rest := Retained(arena[n + 1..], loaded);
      if arena[n] in loaded {
        assert kept + ([arena[n]] + rest) == kept + [arena[n]] + rest;
        kept := kept + [arena[n]];
      } else {
        assert [] + rest == rest;
      }
      n := n + 1;
    }
  }

  lemma OneEntry(w: World, universe: set<Key>, input: EntryInput, ld: Loader, imports: seq<Import>)
    requires Bounded(w, universe) && Parses(w, input)
    requires LoadImports(w, universe, Empty([input.file], 2), input.importer, SourceOf(w, input.bytes).1, input.roots)
             == Done(ld, imports)
    ensures Outcomes(w, universe, [input.file], [RequestFor(w, input)], ld, [EntryImports(imports)])
    ensures Closed(ld.modules) && TargetsIn(ld.modules, imports)
  {
    hide LoadImports, Bounded;
    var request, answer := RequestFor(w, input), EntryImports(imports);
    OneEntryServed(w, universe, input, ld, imports);
    WalkIsDefined(w, universe, [input.file], [request], ld, [answer], 0);
  }

  /** Whatever polls were made on the way, a program has no diagnostics exactly when its entry parses
      and its import graph is healthy, and then it is all that was loaded. */
  lemma ProgramsAreHealthy(w: World, universe: set<Key>, input: EntryInput, p: Program)
    requires IsProgram(w, universe, input, p)
    ensures forall ld: Loader, answer: Answer ::
              Outcomes(w, universe, [input.file], [RequestFor(w, input)], ld, [answer]) ==>
                && EntryReport(w, ld, input, answer, p.diagnostics)
                && (p.diagnostics == [] <==> Parses(w, input) && Healthy(ld.modules, answer.imports))
                && (p.diagnostics == [] ==> p.modules == ld.arena && p.sources == ld.sources)
  {
    forall ld: Loader, answer: Answer | Outcomes(w, universe, [input.file], [RequestFor(w, input)], ld, [answer])
      ensures EntryReport(w, ld, input, answer, p.diagnostics)
      ensures p.diagnostics == [] <==> Parses(w, input) && Healthy(ld.modules, answer.imports)
      ensures p.diagnostics == [] ==> p.modules == ld.arena && p.sources == ld.sources
    {
      hide *;
      ProgramIsHealthy(w, universe, input, p, ld, answer);
    }
  }

  lemma ProgramIsHealthy(w: World, universe: set<Key>, input: EntryInput, p: Program, ld: Loader, answer: Answer)
    requires IsProgram(w, universe, input, p)
    requires Outcomes(w, universe, [input.file], [RequestFor(w, input)], ld, [answer])
    ensures EntryReport(w, ld, input, answer, p.diagnostics)
    ensures p.diagnostics == [] <==> Parses(w, input) && Healthy(ld.modules, answer.imports)
    ensures p.diagnostics == [] ==> p.modules == ld.arena && p.sources == ld.sources
  {
    hide Outcomes, Visited, Healthy, Closed, TargetsIn;
    var request := RequestFor(w, input);
    SilentExactlyWhenHealthy(w, universe, [input.file], [request], ld, [answer], 0);
    if Parses(w, input) {
      var ld': Loader, answer': Answer :|
        && Outcomes(w, universe, [input.file], [request], ld', [answer'])
        && EntryReport(w, ld', input, answer', p.diagnostics)
        && p.modules == Retained(ld'.arena, Visited(ld'.modules, answer'.imports, {}).0) && p.sources == ld'.sources;
      OutcomesAgree(w, universe, [input.file], [request], ld, [answer], ld', [answer']);
      assert [answer][0] == [answer'][0];
      NothingIsDropped(w, universe, [input.file], request, ld, answer);
    } else {
      NothingToVisit(w, universe, input, ld, answer);
      VisitNothing(ld.modules);
      assert SourceOf(w, input.bytes).0 + [] == SourceOf(w, input.bytes).0;
    }
  }

  lemma VisitNothing(mods: Modules)
    requires Closed(mods) && TargetsIn(mods, [])
    ensures Visited(mods, [], {}).1 == []
  {
  }

  /** An entry that does not parse has no imports to report on. */
  lemma NothingToVisit(w: World, universe: set<Key>, input: EntryInput, ld: Loader, answer: Answer)
    requires !Parses(w, input) && Outcomes(w, universe, [input.file], [RequestFor(w, input)], ld, [answer])
    ensures answer == EntryImports([])
  {
    hide Outcomes, ModuleRecorded, Faithful;
    RecordsAreFaithful(w, universe, [input.file], [RequestFor(w, input)], ld, [answer]);
    assert [RequestFor(w, input)][0].Entry? && [answer][0] == answer;
  }

  // ----- Several entries in one workspace -----

  /** Answers already given, in front of those still to come. */
  ghost function Following(answers: seq<Answer>, rest: Outcome<seq<Answer>>): Outcome<seq<Answer>> {
    match rest
    case Cancelled(at) => Cancelled(at)
    case Done(at, more) => Done(at, answers + more)
  }

  /** One entry of a workspace. */
  datatype LoadedEntry = LoadedEntry(file: Path, source: nat, statements: seq<Stmt>, diagnostics: seq<Diagnostic>)

  /** Entries and the modules they share; `statements` are the first entry's. */
  datatype Workspace = Workspace(sources: seq<Path>, statements: seq<Stmt>, modules: seq<Key>,
                                 entries: seq<LoadedEntry>)

  /** An entry as it is before its imports are loaded. */
  function Parsed(w: World, input: EntryInput, source: nat): LoadedEntry {
    LoadedEntry(input.file, source, SourceOf(w, input.bytes).1, SourceOf(w, input.bytes).0)
  }

  /** One entry of a workspace, once its imports are loaded. */
  ghost predicate IsEntry(w: World, ld: Loader, input: EntryInput, source: nat, answer: Answer, entry: LoadedEntry) {
    && entry.file == input.file && entry.source == source && entry.statements == SourceOf(w, input.bytes).1
    && EntryReport(w, ld, input, answer, entry.diagnostics)
  }

  ghost predicate AreEntries(w: World, ld: Loader, inputs: seq<EntryInput>, answers: seq<Answer>,
                             entries: seq<LoadedEntry>)
  {
    && |answers| == |entries| == |inputs|
    && forall j :: 0 <= j < |inputs| ==> IsEntry(w, ld, inputs[j], j, answers[j], entries[j])
  }

  /** A workspace is the result of loading all its entries in one fresh loader. */
  ghost predicate IsWorkspace(w: World, universe: set<Key>, inputs: seq<EntryInput>, ws: Workspace) {
    && ws.statements == (if ws.entries == [] then [] else ws.entries[0].statements)
    && exists ld: Loader, answers: seq<Answer> ::
         && Outcomes(w, universe, FilesOf(inputs), RequestsFor(w, inputs), ld, answers)
         && AreEntries(w, ld, inputs, answers, ws.entries)
         && ws.sources == ld.sources && ws.modules == ld.arena
  }

  /** How often the callback is asked while a workspace is loaded: at the start, before and after each entry is
      parsed, for everything that is loaded, before the standard library if there is an entry, and at the end. */
  ghost predicate IsWorkspacePollCount(w: World, universe: set<Key>, inputs: seq<EntryInput>, polls: nat) {
    forall ld: Loader, answers: seq<Answer> ::
      Outcomes(w, universe, FilesOf(inputs), RequestsFor(w, inputs), ld, answers) ==>
        && |answers| == |inputs| && (forall k :: k in ld.arena ==> k in ld.modules)
        && polls == 1 + 2 * |inputs| + PollsToServeAll(RequestsFor(w, inputs), answers)
                    + PollsFor(w, ld.modules, ld.arena) + (if inputs == [] then 1 else 2)
  }

  lemma {:induction false} PollsOfEntries(w: World, universe: set<Key>, inputs: seq<EntryInput>, ld: Loader,
                                          answers: seq<Answer>)
    requires Bounded(w, universe)
    requires Serve(w, universe, Empty(FilesOf(inputs), 1 + 2 * |inputs|), RequestsFor(w, inputs)) == Done(ld, answers)
    ensures IsWorkspacePollCount(w, universe, inputs, ld.polls + if inputs == [] then 1 else 2)
  {
    hide Bounded, Outcomes, PollsFor, PollsToServeAll, Serve;
    var files, requests := FilesOf(inputs), RequestsFor(w, inputs);
    Served(w, universe, inputs, 1 + 2 * |inputs|, ld, answers);
    PollsOfOutcome(w, universe, files, 1 + 2 * |inputs|, requests, ld, answers);
    forall ld': Loader, answers': seq<Answer> | Outcomes(w, universe, files, requests, ld', answers')
      ensures answers' == answers && ld'.modules == ld.modules && ld'.arena == ld.arena
    {
      OutcomesAgree(w, universe, files, requests, ld, answers, ld', answers');
    }
  }

  /** Parse every entry, polling before and after each. */
  method ParseEntries(w: World, inputs: seq<EntryInput>)
    returns (r: Option<seq<LoadedEntry>>, sources: seq<Path>, polls: nat)
    ensures Heeds(w, polls, r.None?)
    ensures r.Some? ==> sources == FilesOf(inputs) && |r.value| == |inputs| && polls == 1 + 2 * |inputs|
    ensures r.Some? ==> forall j :: 0 <= j < |inputs| ==> r.value[j] == Parsed(w, inputs[j], j)
  {
    var entries: seq<LoadedEntry> := [];
    sources, polls := [], 1;
    if w.cancel(0) {
      return None, [], 1;
    }
    for n := 0 to |inputs|
      invariant Heeds(w, polls, false) && sources == FilesOf(inputs)[..n] && polls == 1 + 2 * n
      invariant |entries| == n && forall j :: 0 <= j < n ==> entries[j] == Parsed(w, inputs[j], j)
    {
      polls := polls + 1;
      if w.cancel(polls - 1) {
        return None, [], polls;
      }
      var entry := Parsed(w, inputs[n], |sources|);
      sources := sources + [inputs[n].file];
      polls := polls + 1;
      if w.cancel(polls - 1) {
        return None, [], polls;
      }
      entries := entries + [entry];
    }
    return Some(entries), sources, polls;
  }

  /** Load the imports of every entry that parsed, in one loader. */
  method LoadRoots(w: World, ghost universe: set<Key>, loader: ModuleLoader, inputs: seq<EntryInput>,
                   entries: seq<LoadedEntry>)
    returns (r: Option<seq<seq<Import>>>)
    requires Bounded(w, universe)
    requires |entries| == |inputs| && forall j :: 0 <= j < |inputs| ==> entries[j] == Parsed(w, inputs[j], j)
    modifies loader
    ensures Obeys(w, old(loader.State()), loader.State(), r.None?)
    ensures r.Some? ==> |r.value| == |inputs|
    ensures r.Some? ==>
              Serve(w, universe, old(loader.State()), RequestsFor(w, inputs))
              == Done(loader.State(), AnswersOf(r.value))
  {
    hide Serve, LoadImports, Bounded, SourceOf, Following, Obeys, Extends;
    StartsObeying(w, loader.State());
    ghost var start, requests := loader.State(), RequestsFor(w, inputs);
    var rootImports: seq<seq<Import>> := [];
    FollowingNothing(Serve(w, universe, start, requests));
    assert requests[0..] == requests && AnswersOf([]) == [];
    for n := 0 to |inputs|
      invariant |rootImports| == n && Obeys(w, start, loader.State(), false)
      invariant Serve(w, universe, start, requests) ==
                Following(AnswersOf(rootImports), Serve(w, universe, loader.State(), requests[n..]))
    {
      ghost var here := loader.State();
      var imports := [];
      if entries[n].diagnostics == [] {
        var found := loader.LoadImportsWithCancellation(w, universe, inputs[n].importer, entries[n].statements,
                                                        inputs[n].roots);
        ObeysOn(w, start, here, loader.State(), found.None?);
        if found.None? {
          return None;
        }
        imports := found.value;
      } else {
        NoImports(w, universe, here, inputs[n].importer, inputs[n].roots);
      }
      ServeNext(w, universe, here, requests[n..], loader.State(), imports, AnswersOf(rootImports));
      assert requests[n..][1..] == requests[n + 1..];
      assert AnswersOf(rootImports + [imports]) == AnswersOf(rootImports) + [EntryImports(imports)];
      rootImports := rootImports + [imports];
    }
    assert requests[|inputs|..] == [];
    ServeNothing(w, universe, loader.State(), AnswersOf(rootImports));
    return Some(rootImports);
  }

  /** Add to every entry's own diagnostics those of its imports. */
  method WalkEntries(mods: Modules, rootImports: seq<seq<Import>>, own: seq<LoadedEntry>)
    returns (entries: seq<LoadedEntry>)
    requires |rootImports| == |own| && (own != [] ==> Closed(mods))
    requires forall j :: 0 <= j < |own| ==> TargetsIn(mods, rootImports[j])
    ensures |entries| == |own|
    ensures forall j :: 0 <= j < |own| ==>
              entries[j] == own[j].(diagnostics := own[j].diagnostics + Visited(mods, rootImports[j], {}).1)
  {
    hide Visited, Closed, TargetsIn;
    entries := own;
    for n := 0 to |own|
      invariant |entries| == |own|
      invariant forall j :: 0 <= j < n ==>
                  entries[j] == own[j].(diagnostics := own[j].diagnostics + Visited(mods, rootImports[j], {}).1)
      invariant forall j :: n <= j < |own| ==> entries[j] == own[j]
    {
      var walker := new Walker();
      walker.Visit(rootImports[n], mods);
      assert [] + Visited(mods, rootImports[n], {}).1 == Visited(mods, rootImports[n], {}).1;
      entries := entries[n := entries[n].(diagnostics := entries[n].diagnostics + walker.diagnostics)];
    }
  }

  method LoadEntries(w: World, ghost universe: set<Key>, inputs: seq<EntryInput>)
    returns (r: Option<Workspace>, polls: nat)
    requires Bounded(w, universe) && w.scoped
    ensures Heeds(w, polls, r.None?)
    ensures r.Some? ==> IsWorkspace(w, universe, inputs, r.value) && IsWorkspacePollCount(w, universe, inputs, polls)
  {
    hide Outcomes, Visited, Bounded, Serve, Closed, TargetsIn, SourceOf, Heeds, Obeys, IsWorkspacePollCount,
         PollsFor, PollsToServeAll, Healthy, CleanlyReached;
    var parsed, sources, before := ParseEntries(w, inputs);
    if parsed.None? {
      return None, before;
    }
    var entries := parsed.value;
    var loader := new ModuleLoader(sources, before);
    var rootImports := LoadRoots(w, universe, loader, inputs, entries);
    polls := loader.polls;
    PollsOfLoad(w, Empty(sources, before), loader.State(), rootImports.None?);
    if rootImports.None? {
      return None, polls;
    }
    var imports, modules := rootImports.value, loader.modules;
    ghost var ld, answers := loader.State(), AnswersOf(imports);
    Served(w, universe, inputs, before, ld, answers);
    PollsOfEntries(w, universe, inputs, ld, answers);
    if inputs != [] {
      WalkIsDefined(w, universe, sources, RequestsFor(w, inputs), ld, answers, 0);
    }
    forall j | 0 <= j < |inputs| ensures TargetsIn(modules, imports[j]) {
      WalkIsDefined(w, universe, sources, RequestsFor(w, inputs), ld, answers, j);
    }
    entries := WalkEntries(modules, imports, entries);
    assert AreEntries(w, ld, inputs, answers, entries);
    if inputs != [] {
      OneMorePoll(w, polls);
      polls := polls + 1;
      if w.cancel(polls - 1) {
        return None, polls;
      }
    }
    OneMorePoll(w, polls);
    polls := polls + 1;
    if w.cancel(polls - 1) {
      return None, polls;
    }
    var root := if entries == [] then [] else entries[0].statements;
    return Some(Workspace(loader.sources, root, loader.arena, entries)), polls;
  }

  lemma FollowingNothing(r: Outcome<seq<Answer>>)
    ensures Following([], r) == r
  {
    if r.Done? {
      assert [] + r.value == r.value;
    }
  }

  lemma NoImports(w: World, universe: set<Key>, ld: Loader, importer: Path, roots: Roots)
    requires Bounded(w, universe)
    ensures LoadImports(w, universe, ld, importer, [], roots) == Done(ld, [])
  {
  }

  lemma ServeNothing(w: World, universe: set<Key>, ld: Loader, answers: seq<Answer>)
    requires Bounded(w, universe)
    ensures Following(answers, Serve(w, universe, ld, [])) == Done(ld, answers)
  {
    assert answers + [] == answers;
  }

  lemma ServeNext(w: World, universe: set<Key>, ld: Loader, requests: seq<Request>, at: Loader, imports: seq<Import>,
                  answers: seq<Answer>)
    requires Bounded(w, universe) && requests != [] && requests[0].Entry?
    requires forall q :: q in requests ==> InUniverse(w, universe, q)
    requires LoadImports(w, universe, ld, requests[0].importer, requests[0].statements, requests[0].roots)
             == Done(at, imports)
    ensures Following(answers, Serve(w, universe, ld, requests))
            == Following(answers + [EntryImports(imports)], Serve(w, universe, at, requests[1..]))
  {
    hide LoadImports, Bounded;
    var rest := Serve(w, universe, at, requests[1..]);
    if rest.Done? {
      assert answers + ([EntryImports(imports)] + rest.value) == answers + [EntryImports(imports)] + rest.value;
    }
  }

  lemma Served(w: World, universe: set<Key>, inputs: seq<EntryInput>, polls: nat, ld: Loader, answers: seq<Answer>)
    requires Bounded(w, universe)
    requires Serve(w, universe, Empty(FilesOf(inputs), polls), RequestsFor(w, inputs)) == Done(ld, answers)
    ensures Outcomes(w, universe, FilesOf(inputs), RequestsFor(w, inputs), ld, answers)
  {
  }

  /** In a workspace too an entry has no diagnostics exactly when it parses and the import graph
      below it is healthy; the workspace holds all that was loaded. */
  lemma WorkspacesAreHealthy(w: World, universe: set<Key>, inputs: seq<EntryInput>, ws: Workspace)
    requires IsWorkspace(w, universe, inputs, ws)
    ensures forall ld: Loader, answers: seq<Answer> ::
              Outcomes(w, universe, FilesOf(inputs), RequestsFor(w, inputs), ld, answers) ==>
                && ws.sources == ld.sources && ws.modules == ld.arena && |answers| == |ws.entries| == |inputs|
                && forall j :: 0 <= j < |inputs| ==>
                     && EntryReport(w, ld, inputs[j], answers[j], ws.entries[j].diagnostics)
                     && (ws.entries[j].diagnostics == [] <==>
                           Parses(w, inputs[j]) && Healthy(ld.modules, answers[j].imports))
  {
    hide Outcomes, Visited, Healthy, Closed, TargetsIn, SourceOf;
    var ld': Loader, answers': seq<Answer> :|
      && Outcomes(w, universe, FilesOf(inputs), RequestsFor(w, inputs), ld', answers')
      && AreEntries(w, ld', inputs, answers', ws.entries)
      && ws.sources == ld'.sources && ws.modules == ld'.arena;
    forall ld: Loader, answers: seq<Answer> |
      Outcomes(w, universe, FilesOf(inputs), RequestsFor(w, inputs), ld, answers)
      ensures answers == answers' && ws.sources == ld.sources && ws.modules == ld.arena
      ensures forall j :: 0 <= j < |inputs| ==>
                && EntryReport(w, ld, inputs[j], answers[j], ws.entries[j].diagnostics)
                && (ws.entries[j].diagnostics == [] <==>
                      Parses(w, inputs[j]) && Healthy(ld.modules, answers[j].imports))
    {
      OutcomesAgree(w, universe, FilesOf(inputs), RequestsFor(w, inputs), ld, answers, ld', answers');
      forall j | 0 <= j < |inputs|
        ensures EntryReport(w, ld, inputs[j], answers[j], ws.entries[j].diagnostics)
        ensures ws.entries[j].diagnostics == [] <==> Parses(w, inputs[j]) && Healthy(ld.modules, answers[j].imports)
      {
        assert IsEntry(w, ld', inputs[j], j, answers[j], ws.entries[j]);
        SilentExactlyWhenHealthy(w, universe, FilesOf(inputs), RequestsFor(w, inputs), ld, answers, j);
      }
    }
  }

  ghost function AnswersOf(imports: seq<seq<Import>>): (a: seq<Answer>)
    ensures |a| == |imports| && forall j :: 0 <= j < |a| ==> a[j] == EntryImports(imports[j])
  {
    seq(|imports|, i requires 0 <= i < |imports| => EntryImports(imports[i]))
  }

  // ----- What is loaded for an entry -----

  /** An entry whose text is not UTF-8, or does not parse, loads nothing; any other has an import for each of
      its `use` statements, as the resolver answers it for the entry's file and module roots. */
  lemma EntriesAreFaithful(w: World, universe: set<Key>, sources: seq<Path>, inputs: seq<EntryInput>, ld: Loader,
                           answers: seq<Answer>, j: nat)
    requires Outcomes(w, universe, sources, RequestsFor(w, inputs), ld, answers) && j < |inputs|
    ensures |answers| == |inputs| && answers[j].EntryImports?
    ensures var input, imports := inputs[j], answers[j].imports;
            if w.badUtf8(input.bytes).Some? || w.parse(input.bytes).0 != [] then imports == []
            else Recorded(w, ld.ids, input.importer, input.roots, Uses(w.parse(input.bytes).1), imports)
  {
    hide Outcomes, ModuleRecorded, Faithful;
    RecordsAreFaithful(w, universe, sources, RequestsFor(w, inputs), ld, answers);
    assert RequestsFor(w, inputs)[j] == RequestFor(w, inputs[j]);
  }

  /** A program keeps exactly the modules that clean imports reach through modules that parsed, each once, in
      the order they were loaded; its statements and its first diagnostics are those of its own text. */
  lemma ProgramsKeepWhatIsReached(w: World, universe: set<Key>, input: EntryInput, p: Program, ld: Loader,
                                  answer: Answer)
    requires IsProgram(w, universe, input, p)
    requires Outcomes(w, universe, [input.file], [RequestFor(w, input)], ld, [answer])
    ensures answer.EntryImports? && Distinct(p.modules)
    ensures forall k :: k in p.modules <==> CleanlyReached(ld.modules, answer.imports, k)
    ensures AllInOrder(ld.arena, p.modules)
    ensures if w.badUtf8(input.bytes).Some? then
              && p.statements == [] && |p.diagnostics| == 1
              && p.diagnostics[0].code == InvalidUtf8 && p.diagnostics[0].span == w.badUtf8(input.bytes).value
            else p.statements == w.parse(input.bytes).1 && w.parse(input.bytes).0 <= p.diagnostics
  {
    hide Outcomes, Visited, Closed, TargetsIn, CleanlyReached;
    if Parses(w, input) {
      KeptOfOutcome(w, universe, input, p, ld, answer);
    } else {
      NothingToVisit(w, universe, input, ld, answer);
      NothingReached(ld.modules);
    }
  }

  lemma NothingReached(mods: Modules)
    ensures forall k :: !CleanlyReached(mods, [], k)
  {
  }

  lemma KeptOfOutcome(w: World, universe: set<Key>, input: EntryInput, p: Program, ld: Loader, answer: Answer)
    requires IsProgram(w, universe, input, p) && Parses(w, input)
    requires Outcomes(w, universe, [input.file], [RequestFor(w, input)], ld, [answer])
    ensures answer.EntryImports? && Distinct(p.modules)
    ensures forall k :: k in p.modules <==> CleanlyReached(ld.modules, answer.imports, k)
    ensures AllInOrder(ld.arena, p.modules)
  {
    hide Outcomes, Visited, Closed, TargetsIn, CleanlyReached, AllInOrder, Retained;
    var request := RequestFor(w, input);
    var ld': Loader, answer': Answer :|
      && Outcomes(w, universe, [input.file], [request], ld', [answer'])
      && EntryReport(w, ld', input, answer', p.diagnostics)
      && p.modules == Retained(ld'.arena, Visited(ld'.modules, answer'.imports, {}).0) && p.sources == ld'.sources;
    OutcomesAgree(w, universe, [input.file], [request], ld, [answer], ld', [answer']);
    assert [answer][0] == [answer'][0];
    DependenciesComeFirst(w, universe, [input.file], [request], ld, [answer]);
    var loaded := Visited(ld.modules, answer.imports, {}).0;
    RetainedIsTheLoadedPart(ld.arena, loaded);
    forall k ensures k in p.modules <==> CleanlyReached(ld.modules, answer.imports, k) {
      LoadedIsCleanlyReached(ld.modules, answer.imports, k);
      if k in loaded {
        LoadedIsReached(ld.modules, answer.imports, k);
        AllInArena(w, universe, [input.file], [request], ld, [answer], k);
      }
    }
  }

  lemma AllInArena(w: World, universe: set<Key>, sources: seq<Path>, requests: seq<Request>, ld: Loader,
                   answers: seq<Answer>, k: Key)
    requires Outcomes(w, universe, sources, requests, ld, answers) && k in ld.modules
    ensures k in ld.arena
  {
    SessionHolds(w, universe, sources, requests, ld, answers);
  }
}
