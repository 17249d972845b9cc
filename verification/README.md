# Verified models of the xsh frontend

Dafny models of four parts of the xsh frontend, with proofs of what they promise:

- the **symbol interner** (`src/symbol.rs`): names shared by all threads, the owners that keep dynamic
  names alive, and the per-thread spelling caches that are read without a lock;
- the **module loader** (`src/loader.rs`): the depth-first load over an import graph, the walk that
  decides what an entry reports and keeps, and the two entry loaders;
- **source positions and diagnostics** (`src/source.rs`, `src/diagnostic.rs`): lines and columns, the
  clipped excerpt under a diagnostic, and coloured rendering;
- **two walks** (`src/frontend_stats.rs`, `src/project.rs`): the type-node count over shared graphs, and
  lexical path normalisation with the nearest-config search.

`dafny verify dfyconfig.toml` checks everything.

## How the models are built

**Symbols.** `SymbolTable` is the sequential interner: a table value with its operations, and class
`Interner`, whose methods are proved against them. `SymbolSystem` is a transition system over threads,
owners, the interner and the caches. A step ends where a thread takes or drops a lock or touches the
release counter; the release of a slot's last owner is two steps, count and then clear. Locks are held by
whoever's program counter says so, atomics are sequentially consistent, and nothing else is assumed about
scheduling. `SymbolInvariant` proves the invariant of every step, `SymbolTheorems` what it means over
runs, `SymbolOperations` what whole operations return from request to answer, `SymbolLifetimes` that owners
live as long as a handle or guard does and no longer, `SymbolProgress` that no state is stuck and every
operation ends, and `SymbolSharing` the limit of interning: `intern_existing` trusts a symbol looked up
under a lock that has been dropped since, so a sibling thread of the same owner can make it return a wrong
name. The exact condition is proved: interning is right in every run if and only if no owner is used by two
threads at once. The documentation of the source does not state this condition.

**Modules.** The file system, the resolver, the parser and the cancellation callback are fixed functions
in `World`. `LoaderSpec` gives loading as a function on loader states that terminates because the
universe of files is finite; `ModuleLoading` has the loader as an object updated in place, proved equal
to it. `LoaderGraph` proves the invariant by induction over the load, `LoaderRecords` that the recorded
graph is the files' graph, `LoaderTheorems` the results over any sequence of requests to one loader,
`LoaderAgreement` that these have one outcome, and `LoaderPolls` how often they ask the callback.
`RuntimeLoading` has the second walk as an object, `RuntimeTheorems` and `EntryTheorems` what it finds, and
`EntryLoading` the two entry loaders on top of all that. `ModuleKeys` is the naming of modules when several
entries with different module roots share a loader.

**Positions and diagnostics.** Texts are sequences of Unicode scalars; files hold their UTF-8 bytes
(section 3 of RFC 3629), and positions are byte offsets. `SourceText.SourceFile` works on the bytes as the
source does and is specified on scalars. Rendered output is a list of pieces, text or colour, so that the
plain and the coloured rendering are two readings of one list; `RenderedText` writes out what either says.

**The two walks.** In `SharedTerms` a shared body is written out wherever it is referred to, with its
address; two references with one address have one body. `TypeNodes` has the counter over types, and
`TypePositions` says what it counts: positions in the types themselves, found by their destructors. Cyclic
shared graphs cannot be built from reference-counted pointers without interior mutability, and are not
modelled.

## Results that are negative

- `SymbolSharing.InterningSafeIffUnshared`: interning can return a wrong name for an owner used by two
  threads at once, and for no other.
- `ProjectPaths.RelativePlaceIsKeptUpToOne`: normalising a relative path that leads up two or more
  directories changes where it leads, because the second `..` cancels the first. The source only
  normalises absolute paths.

## Model

| member | source | states |
|---|---|---|
| SymbolTable.PreloadedSymbol | src/symbol.rs:791-805 | a preloaded symbol is found exactly for preloaded texts, and spells the text |
| SymbolTable.InternSpells | src/symbol.rs:602-629 | interning is canonical: the result spells the text, no other symbol's spelling changes, a text already there changes nothing; map, slots and free list stay in exact correspondence |
| SymbolTable.RetainCounts | src/symbol.rs:631-644 | retaining a live symbol counts one owner more, keeps a sole-owner claim only for an owner that nobody else has joined, and changes no other entry and no spelling; the correspondence is kept |
| SymbolTable.ClearForgets | src/symbol.rs:659-668 | returning a slot takes away exactly that symbol's spelling |
| SymbolTable.SpelledIsText | src/symbol.rs:397-406 | over live names `spelled(t)` holds exactly when the name's text is t, the preloaded shortcut included |
| SymbolTable.NameOrderIsTotal | src/symbol.rs:477-497 | over live names `cmp` is a total order, says `Less` exactly when one spelling comes before the other in dictionary order (ends first, or has the smaller unit at the first difference), and `Equal` exactly for equal symbols |
| SymbolTable.LiveAndFree | src/symbol.rs:605-607 | live slots and free list split the slots between them, and no slot is on the free list twice |
| SymbolTable.TableLengthIsPeakLoad | src/symbol.rs:602-669 | over every history of intern, retain and release the slot table is as long as the greatest number of dynamic symbols live at once |
| SymbolTable.Interner.WithPreloaded | src/symbol.rs:579-596 | a new interner holds exactly the preloaded names |
| SymbolTable.Interner.Lookup | src/symbol.rs:598-600 | finds the symbol that spells a text, and nothing exactly when none does |
| SymbolTable.Interner.InternText | src/symbol.rs:602-629 | interns as specified; it panics exactly when the ids run out, and then changes nothing |
| SymbolTable.Interner.RetainSymbol | src/symbol.rs:631-644 | counts an owner and settles the sole-owner claim; panics exactly on counter overflow, with only the claim settled |
| SymbolTable.Interner.ReleaseSymbol | src/symbol.rs:646-669 | gives up one owner, returns the slot at the last one, counts a release exactly then, and panics exactly on underflow |
| SymbolObjects.SymbolOwner.Intern | src/symbol.rs:161-169 | the result spells the text and is preloaded or in the owner's set; table and set are as specified; it fails exactly when ids or owner counts run out |
| SymbolObjects.SymbolOwner.InternExisting | src/symbol.rs:175-186 | a symbol in the owner's set is returned as it is, any other interned anew |
| SymbolObjects.SymbolOwner.Drop | src/symbol.rs:232-240 | every symbol of the owner has one owner fewer, those without another are gone, all others are untouched, and as many releases are counted as slots were returned |
| SymbolObjects.DynamicSpellings.Load | src/symbol.rs:733-761 | a current and complete cache is left alone; otherwise stale copies go and missing ones of live symbols are made |
| SymbolInvariant.StepKeeps | src/symbol.rs:161-357 | every step of every thread keeps the invariant of owners, slots, caches and locks |
| SymbolTheorems.BookkeepingIsExact | src/symbol.rs:161-240 | in every reachable state: owner counts are exact, a sole-owner claim names a living owner and the only holder, text map, slots and free list correspond |
| SymbolTheorems.SpellingsAreCurrent | src/symbol.rs:717-789 | in every interleaving every spelling a thread is given, on the lock-free path too, is the slot's spelling at that moment |
| SymbolTheorems.HeldNamesAreStable | src/symbol.rs:232-240 | what an owner holds keeps its spelling as long as the owner lives, through drops, slot reuse and address reuse elsewhere |
| SymbolTheorems.LiveNameIsReadRight | src/symbol.rs:367-378 | a thread that reads a name held by a living owner reads that name's spelling, whatever happened between |
| SymbolTheorems.InternReturnsRetainedName | src/symbol.rs:321-357 | every step that ends an interning with a name returns one that spells the text asked for: the preloaded symbol of a preloaded text, and for an owner used by one thread at a time one that it retains, on all three paths |
| SymbolTheorems.IssuedNamesStayGood | src/symbol.rs:321-357 | and it does so until the owner is dropped |
| SymbolTheorems.LookupOwnedIsExact | src/symbol.rs:308-319 | `lookup_owned` finds exactly the name the active owner retains under the text |
| SymbolOperations.InternIsRight | src/symbol.rs:321-357 | `Name::intern` from request to answer, in any interleaving, with the active owner not shared: a preloaded text gives its preloaded symbol, any other panics exactly when no owner is active, and otherwise gives a name that spells the text and that the owner retains |
| SymbolOperations.OwnerInternIsRight | src/symbol.rs:161-169 | `SymbolOwner::intern` from request to answer, the owner shared or not: it does not panic, and its name spells the text and is retained as long as the owner lives |
| SymbolOperations.LookupIsRight | src/symbol.rs:308-319 | `lookup_owned` from request to answer: the symbol of a preloaded text; nothing without an owner; otherwise a name the owner retains under the text, the one it retained when asked if there was one |
| SymbolOperations.ReadingIsRight | src/symbol.rs:774-789 | a reading of spellings from request to answer gives one text per symbol: a preloaded name's own, and that of every name an owner held when asked and still holds |
| SymbolOperations.GuardsNest | src/symbol.rs:193-200 | an entered owner is the active one until it is left, and then the one before is again |
| SymbolLifetimes.NothingLeaks | src/symbol.rs:139-143 | in every reachable state an owner has a handle or a guard or is being released; with all handles and guards gone and all operations over, no owner and no dynamic name is left |
| SymbolLifetimes.NewOwnersLive | src/symbol.rs:139-159 | an owner lives, with its handles counted exactly, until as many are dropped as were made |
| SymbolSharing.SharedOwnerGoesWrong | src/symbol.rs:175-186 | the run in which a sibling thread of the owner refills the slot and the stale symbol is accepted |
| SymbolSharing.InterningSafeIffUnshared | src/symbol.rs:321-357 | interning never returns a name that does not spell what was asked for, in any run, if and only if no owner is used by two threads at once; and so for names going wrong after they were returned |
| SymbolProgress.NeverDeadlocked | src/symbol.rs:161-240 | in every reachable state with an unfinished operation some thread can step, even past waiting readers and writers |
| SymbolProgress.StepShrinksWork | src/symbol.rs:321-357 | a step brings its operation nearer to its end and adds no work to another |
| SymbolProgress.OperationsFinish | src/symbol.rs:232-240 | however threads are scheduled, operations in progress end within a bound known beforehand |
| ModuleKeys.IdentifyKeeps | src/loader.rs:1060-1089 | naming forgets no earlier name and is stable, and a file that needs a context suffix has other roots than the first ones: the assertion holds |
| ModuleKeys.KeysNameFilesAndRoots | src/loader.rs:1060-1089 | over any history of a shared workspace two calls get one key exactly when they name the same file under the same roots, if physical keys have no NUL |
| ModuleKeys.NulKeysCollide | src/loader.rs:1083 | that premise is needed for the format of keys; no path the loader has read can contain NUL, so the collision does not arise |
| LoaderSpec.Load | src/loader.rs:999-1058 | loading ends; the stack is restored on every exit; it stops at the first poll that asks for it and only then |
| LoaderSpec.LoadImports | src/loader.rs:1102-1157 | the same for the imports of a file |
| LoaderGraph.LoadKeeps | src/loader.rs:999-1058 | a load keeps the loader's invariant, adds only what its module reaches, and finishes that module |
| LoaderGraph.LoadImportsKeeps | src/loader.rs:1102-1157 | the same for a list of statements; a cycle diagnostic points at the stack or closes a recorded cycle |
| LoaderTheorems.EveryCycleIsReported | src/loader.rs:1128-1136 | on every closed path of recorded imports some edge carries the cycle diagnostic in all its imports |
| LoaderTheorems.CyclesAreReported | src/loader.rs:1128-1136 | some import carries the cycle diagnostic exactly when the recorded graph has a directed cycle, and each that does closes one |
| LoaderTheorems.DependenciesComeFirst | src/loader.rs:1046-1056 | each module enters the arena once, after every module it imports without a diagnostic |
| LoaderTheorems.ExactlyTheReachableAreLoaded | src/loader.rs:999-1157 | exactly the modules reachable from what was asked for are loaded |
| LoaderTheorems.TargetsArePresent | src/loader.rs:1180 | every recorded target is in the table, so the later lookup cannot fail |
| LoaderTheorems.OneSourceEach | src/loader.rs:1015-1016 | each module adds one source of its own, and nothing else adds any |
| LoaderTheorems.RecordsAreFaithful | src/loader.rs:1010-1157 | every module was parsed from what its file holds, or the caller or an override says it holds; a text that is not UTF-8 has that one diagnostic and no imports, any other the parser's diagnostics and one import for each `use`, in order, as the resolver answers |
| LoaderAgreement.OutcomesAgree | src/loader.rs:999-1157 | the cancellation callback decides whether loading ends, not how: two finished loads of the same requests agree but for the number of polls |
| LoaderPolls.ServePolls | src/loader.rs:999-1157 | the callback is asked exactly once for each file looked at, each module begun and each statement |
| ModuleLoading.ModuleLoader.IdentityKey | src/loader.rs:1060-1089 | the mutable tables are updated as specified |
| ModuleLoading.ModuleLoader.LoadWithCancellation | src/loader.rs:999-1058 | the object's whole new state and result are the specified ones |
| ModuleLoading.ModuleLoader.LoadImportsWithCancellation | src/loader.rs:1102-1157 | the same for the loop over statements |
| RuntimeLoading.Walker.Visit | src/loader.rs:1166-1201 | the recursive loop adds exactly the specified modules and diagnostics, in order |
| RuntimeTheorems.LoadedIsCleanlyReached | src/loader.rs:1172-1199 | `loaded` is exactly the set reached by clean imports through modules that parsed |
| RuntimeTheorems.ReportedDiagnostics | src/loader.rs:1172-1199 | the diagnostics are exactly those of the entry's imports and of the imports of the modules taken in: an import's own, those of a module that failed to parse, and, if it could be decoded, that it failed, said at the import |
| RuntimeTheorems.FailuresStandTogether | src/loader.rs:1181-1196 | for every import of a failed module the walk meets, its diagnostics stand together in the report, directly behind the one that says the module failed, if it could be decoded |
| RuntimeTheorems.ReportsComeInOrder | src/loader.rs:1172-1199 | what is found comes in the order of the imports, a module's at the place of its first clean import |
| EntryTheorems.WalkIsDefined | src/loader.rs:1177-1180 | the walk over a finished load never fails on a target that was not loaded: every recorded target is in the module table, under its own key |
| EntryTheorems.SilentExactlyWhenHealthy | src/loader.rs:1166-1201 | in any session, an entry's imports give no diagnostics exactly when its whole import graph is acyclic, parses, and met no unreadable file |
| EntryTheorems.NothingIsDropped | src/loader.rs:731-732 | a single entry without diagnostics keeps every loaded module |
| EntryLoading.LoadEntry | src/loader.rs:681-742 | a single entry's program is the outcome of a fresh load and walk; there is none exactly when the callback asked to stop, at the last poll made; and a program takes an exact number of polls, the entry's own and those of everything loaded |
| EntryLoading.ProgramsAreHealthy | src/loader.rs:681-742 | for every outcome of its load, a program has no diagnostics exactly when its entry parses and its import graph is healthy, and then it is all that was loaded |
| EntryLoading.ProgramsKeepWhatIsReached | src/loader.rs:731-732 | a program keeps exactly the modules that clean imports reach through modules that parsed, each once, in load order; its statements and first diagnostics are those of its own text |
| EntryLoading.LoadEntries | src/loader.rs:820-908 | a workspace has every entry with its own diagnostics and those of its imports, and all modules of one shared load; there is none exactly when the callback asked to stop, at the last poll made; and a workspace takes an exact number of polls |
| EntryLoading.WorkspacesAreHealthy | src/loader.rs:820-908 | for every outcome of its load, an entry of a workspace is without diagnostics exactly when it parses and its import graph is healthy |
| EntryLoading.EntriesAreFaithful | src/loader.rs:825-880 | an entry that cannot be decoded or parsed imports nothing; any other has one import for each `use`, as the resolver answers for the entry's file and module roots |
| Utf8.BoundaryIsScalarPosition | src/source.rs:199 | the byte-wise boundary test holds exactly between scalars |
| Utf8.DecodeUndoesEncode | src/source.rs:140-148 | the scalars of a text come back from its bytes |
| SourceText.SourceFile.constructor | src/source.rs:140-155 | the loop records exactly the line starts |
| SourceText.SourceFile.Location | src/source.rs:198-216 | defined exactly at positions between scalars; gives the position's line and column |
| SourceText.LineAndColumn | src/source.rs:203-215 | the line is one more than the newlines before; the column one more than the scalars since the last |
| SourceText.LocationsIncrease | src/source.rs:198-216 | locations grow strictly, line first, so they tell positions apart |
| SourceText.SourceFile.LineText | src/source.rs:187-196 | the line's scalars without the trailing line end, for exactly the existing lines |
| SourceText.SourceFile.SpanText | src/source.rs:218-239 | the scalars between two positions of this file, if both are positions in order; nothing for a span of another file |
| Excerpt.RowsFit | src/diagnostic.rs:509-543 | both rows have at most 160 scalars and a marker is drawn; no subtraction underflows |
| Excerpt.MarkersStandUnderTheLabel | src/diagnostic.rs:509-543 | every marker stands under the scalar it marks, inside the window |
| Excerpt.MarkersCoverTheLabel | src/diagnostic.rs:531-534 | unclipped markers are as many as asked for; clipped ones reach the edge |
| Rendering.MarkersStandUnderTheText | src/diagnostic.rs:449-462 | with the line and column of a position of the file, every marker stands under the file's scalar it marks |
| Excerpt.ShortLinesAreWhole | src/diagnostic.rs:513-515 | a line that fits with its label is shown whole and unclipped |
| Excerpt.EllipsesTellWhatIsLeftOut | src/diagnostic.rs:526-528 | the text is a stretch of the line, with ellipses exactly where something is left out |
| Excerpt.LabelIsCentred | src/diagnostic.rs:516-528 | a label in the middle of a long line stands in the middle of the window, and wherever it stands as much of the line is shown as fits |
| Highlight.HighlightXshLine | src/diagnostic.rs:554-611 | the loops append the coloured pieces of the line, and end |
| Highlight.TokensAreTheLine | src/diagnostic.rs:554-611 | the pieces hold every character of the line once, in order |
| Highlight.StretchesAreColoured | src/diagnostic.rs:554-611 | a comment is dim to the end of its line, a string green up to the first quote of its kind that no backslash escapes, a whole word magenta exactly if it is a keyword, and nothing else is coloured |
| Highlight.ColourOnlyAddsEscapes | src/diagnostic.rs:328-494 | removing escape sequences from coloured output gives the plain output, for texts without ESC |
| Rendering.UnderlineIsTheLabel | src/diagnostic.rs:614-635 | a label within a line is underlined as wide as its text; a longer one to the end of its first line |
| Rendering.LabelRows | src/diagnostic.rs:457-492 | an uncoloured label is the excerpt's source row and marker row, each behind the margin |
| RenderedText.LabelSays | src/diagnostic.rs:457-493 | in both colour modes: the excerpt between its ellipses, and under it the markers, `^` exactly for primary labels, with the message, in the severity's colour |
| RenderedText.HeaderSays | src/diagnostic.rs:328-357 | in both colour modes: the severity's word in its colour, the code in brackets, the message |
| RenderedText.PrimarySpanIsFirst | src/diagnostic.rs:359-365 | the primary span is the first primary label's, else the first label's, else the diagnostic's |
| RenderedText.PlaceSays | src/diagnostic.rs:366-386 | the place is the file, one more than the newlines before, and one more than the scalars since the last of them, in this order |
| RenderedText.NoPlaceToSay | src/diagnostic.rs:366-368 | and there is none without a span that starts at a position of a file |
| RenderedText.DiagnosticSays | src/diagnostic.rs:328-434 | a diagnostic is its header, its place, every label in order, every note and every hint, with its replacement if that is not empty |
| RenderedText.DiagnosticsAreSeparated | src/diagnostic.rs:317-326 | diagnostics are separated by one newline each |
| Decimals.DecimalIsTheNumber | src/diagnostic.rs:379-381 | a printed number stands for the number, without a needless zero |
| Rendering.ColourIsOnlyEscapes | src/diagnostic.rs:317-494 | the same for whole renderings of any diagnostics |
| Renderer.UnderlineWidth | src/diagnostic.rs:614-635 | computes the specified width from locations and line text |
| Renderer.DiagnosticRenderer.RenderLabel | src/diagnostic.rs:436-494 | appends exactly the pieces of the label, coloured or not |
| Renderer.DiagnosticRenderer.RenderOne | src/diagnostic.rs:328-434 | appends header, place, labels, notes and hints, coloured or not |
| Renderer.DiagnosticRenderer.Render | src/diagnostic.rs:317-326 | appends all diagnostics with a blank line between |
| SharedTerms.CountIsOwnedAndShared | src/frontend_stats.rs:621-639 | the count is what the roots own plus, once each, what every reachable shared body owns |
| SharedTerms.OrderIsIrrelevant | src/frontend_stats.rs:635-639 | it does not depend on the order of the roots |
| SharedTerms.RepetitionAddsNothing | src/frontend_stats.rs:635-639 | nor on further references to a body |
| TypeNodes.OutputTypeNodes.AddType | src/frontend_stats.rs:640-668 | adds a type's nodes and enters each shared part only the first time |
| TypeNodes.OutputTypeNodes.AddModuleType | src/frontend_stats.rs:677-690 | the same for a module type |
| TypeNodes.OutputTypeNodes.AddTypedCallable | src/frontend_stats.rs:692-696 | the same for a callable |
| TypeNodes.OutputTypeNodes.AddSchemeType | src/frontend_stats.rs:698-736 | the same for a scheme type |
| TypeNodes.OutputTypeNodes.AddSchema | src/frontend_stats.rs:738-749 | the same for a schema expectation and its shared children |
| TypeNodes.OutputTypeNodes.AddTypeScheme | src/frontend_stats.rs:751-767 | the same for a type scheme |
| TypePositions.CountRoots | src/frontend_stats.rs:621-767 | after any sequence of additions the count is the number of positions of the roots at which a type or a scheme type stands, and once for every shared address that can be reached that of what is kept there |
| TypePositions.WalkIsNodes | src/frontend_stats.rs:621-767 | the walk of any items counts those positions, for types, scheme types, signatures, callees, schemas, exports and type schemes alike |
| TypePositions.ItemsAreBuilt | src/frontend_stats.rs:640-767 | what is walked for an item is what its destructors give: its parts, then what it shares, as one node if it is a type or a scheme type |
| ProjectPaths.LexicallyNormalized | src/project.rs:62-77 | the loop computes the specified normal form |
| ProjectPaths.NormalisationIsIdempotent | src/project.rs:59-77 | no `.` and at most one leading `..` are left; doing it again changes nothing |
| ProjectPaths.AbsolutePlaceIsKept | src/project.rs:59-77 | an absolute path still leads to the same place, `..` at the root staying there |
| ProjectPaths.RelativePlaceIsKeptUpToOne | src/project.rs:68-72 | a relative path keeps its place exactly when it leads up at most one directory |
| ProjectPaths.TwoUpIsLost | src/project.rs:68-72 | two `..` normalise to nothing, though they lead up two directories |
| ProjectPaths.NearestIsDeepest | src/project.rs:45-48 | the search returns the deepest directory above with a config, or none exactly when there is none |
| ProjectPaths.AnswerIsTheDeepestConfig | src/project.rs:35-57 | the answer names the deepest directory above the file that holds a config, relative to the current directory if it is at or below that, as `.` if it is that one, and absolute otherwise; rejoined and normalised it is that directory; and there is none exactly when none has a config |

## Left out

- Weak-memory effects, lock poisoning, hash-map internals and wrap-around of the release counter: steps are sequentially consistent and counters unbounded.
- Panics of the interner (exhausted ids, owner-count overflow) in the step model: they are in `SymbolTable` only, where the classes state when they happen.
- The preloaded table's byte layout: it is a given finite list of distinct texts.
- A thread's exit is the action `ForgetCache`; guards of entered owners are dropped in the reverse order of entering.
- `Name::with_str` and `dynamic_stats`: one read under locks, nothing beyond the lookups that are modelled.
- `SymbolOwner` equality, `reserve_dynamic_symbols` and the statistics over symbols.
- `canonicalize`, the search path of `resolve_user_module`, reading of `XSH_MODULE_PATH` and files that change during a load: `World` answers the same question the same way every time, and `read` is what a file holds.
- The parser and the recording of searched candidates: a file's text gives its diagnostics and its statements.
- The embedded standard library, `CompactModuleGraph` and arena contents: a loaded module is its key in load order.
- ModuleLoading.ModuleLoader.LoadImportsWithCancellation: the body of its loop for one `use` is a method of its own, `LoadUseWithCancellation`, and the end of a load is `LoadParsed`, to keep the proofs small.
- EntryLoading.LoadEntry: syntax trees and the modules of the embedded standard library are not part of a program.
- `Span` mutators and `SourceMap::add_file`: one assertion each; the loader's sources are a list of paths.
- `SourceFile::from_utf8`: files are given as the bytes of a text; invalid bytes appear in the loader as a diagnostic.
- Machine-readable diagnostics: field copies of locations that are modelled.
- Unicode's alphabetic and numeric classes, and the unstable order of labels with equal spans: parameters of the rendering.
- Which tables of the checker's output are counted, and overflow of the count: `TypePositions.CountRoots` counts any sequence of roots.
- Path prefixes of Windows, and paths that are not text.
- Retained-byte accounting, runtime statistics and output formats, durations, map keys, tracing, the runner and process plumbing: only easy claims.
