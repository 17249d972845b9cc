/** An entry's diagnostics and program after a whole session, in one loader or a shared workspace. */
module EntryTheorems {
  import opened Options
  import opened ModuleKeys
  import opened LoaderSpec
  import opened LoaderGraph
  import opened LoaderRecords
  import opened LoaderSession
  import opened LoaderTheorems
  import opened RuntimeLoading
  import opened RuntimeTheorems

  /** The second walk can look up whatever it meets. */
  lemma WalkIsDefined(w: World, universe: set<Key>, sources: seq<Path>, requests: seq<Request>, ld: Loader,
                      answers: seq<Answer>, j: nat)
    requires Outcomes(w, universe, sources, requests, ld, answers) && j < |requests| && requests[j].Entry?
    ensures |answers| == |requests| && answers[j].EntryImports?
    ensures Closed(ld.modules) && TargetsIn(ld.modules, answers[j].imports)
  {
    hide Outcomes, ModuleRecorded, Recorded;
    RecordsAreFaithful(w, universe, sources, requests, ld, answers);
    TargetsArePresent(w, universe, sources, requests, ld, answers);
    forall i | i in answers[j].imports && i.target.Some? ensures i.target.value in ld.modules {
      assert NamedBy(answers[j], i.target.value);
    }
  }

  /** What a diagnosed import can be, after a session. */
  lemma DiagnosedImports(w: World, universe: set<Key>, sources: seq<Path>, requests: seq<Request>, ld: Loader,
                         answers: seq<Answer>, k: Key, i: Import)
    requires Outcomes(w, universe, sources, requests, ld, answers)
    requires k in ld.modules && i in ld.modules[k].imports && i.diagnostic.Some? && i.target.Some?
    ensures Edge(ld.modules, k, i.target.value) && Reach(ld.modules, i.target.value, k)
  {
    hide Outcomes, Edge, Reach;
    CyclesAreReported(w, universe, sources, requests, ld, answers);
    assert IsCycle(i);
  }

  /** An entry's own imports close no cycle. */
  lemma EntryImportsAreNoCycle(w: World, universe: set<Key>, sources: seq<Path>, requests: seq<Request>, ld: Loader,
                               answers: seq<Answer>, j: nat)
    requires Outcomes(w, universe, sources, requests, ld, answers) && j < |requests| && requests[j].Entry?
    ensures |answers| == |requests| && answers[j].EntryImports?
    ensures forall i :: i in answers[j].imports && i.target.Some? ==> i.diagnostic.None?
  {
    hide Quiet, AllAskedFor, Recorded;
    SessionHolds(w, universe, sources, requests, ld, answers);
    assert Answered(w, ld, requests[j], answers[j]);
    forall i | i in answers[j].imports && i.target.Some? ensures i.diagnostic.None? {
      assert !IsCycle(i);
    }
  }

  lemma SilentIsHealthy(w: World, universe: set<Key>, sources: seq<Path>, requests: seq<Request>, ld: Loader,
                        answers: seq<Answer>, imports: seq<Import>)
    requires Outcomes(w, universe, sources, requests, ld, answers)
    requires Closed(ld.modules) && TargetsIn(ld.modules, imports) && Visited(ld.modules, imports, {}).1 == []
    ensures Healthy(ld.modules, imports)
  {
    hide Outcomes, Visited, Closed, Edge, Reach;
    var mods := ld.modules;
    SilentWhenFine(mods, imports);
    forall k | k in mods && FromImports(mods, imports, k)
      ensures mods[k].diagnostics == [] && AllFine(mods, mods[k].imports)
    {
      FineGraphIsTaken(mods, imports, k);
      LoadedIsReached(mods, imports, k);
    }
    if a, b :| FromImports(mods, imports, a) && Edge(mods, a, b) && Reach(mods, b, a) {
      var p := WalkBack(mods, a, b);
      EveryCycleIsReported(w, universe, sources, requests, ld, answers, p);
      var n :| 0 <= n < |p| - 1 && EdgeReported(mods, p[n], p[n + 1]);
      WalkFrom(mods, imports, p, n);
      ReportedIsNotFine(mods, p[n], p[n + 1]);
    }
  }

  lemma WalkBack(mods: Modules, a: Key, b: Key) returns (p: seq<Key>)
    requires Edge(mods, a, b) && Reach(mods, b, a)
    ensures Walk(mods, p) && |p| > 1 && p[0] == a && p[|p| - 1] == a
  {
    var q :| Walk(mods, q) && q[0] == b && q[|q| - 1] == a;
    p := [a] + q;
    forall n | 0 <= n < |p| - 1 ensures Edge(mods, p[n], p[n + 1]) {
      assert n > 0 ==> Edge(mods, q[n - 1], q[n]);
    }
  }

  lemma {:induction false} WalkFrom(mods: Modules, imports: seq<Import>, p: seq<Key>, n: nat)
    requires Walk(mods, p) && n < |p| - 1 && FromImports(mods, imports, p[0])
    ensures FromImports(mods, imports, p[n]) && Edge(mods, p[n], p[n + 1])
  {
    if n > 0 {
      WalkFrom(mods, imports, p, n - 1);
      FromStep(mods, imports, p[n - 1], p[n]);
    }
    assert Edge(mods, p[n], p[n + 1]);
  }

  lemma ReportedIsNotFine(mods: Modules, a: Key, b: Key)
    requires Edge(mods, a, b) && EdgeReported(mods, a, b)
    ensures !AllFine(mods, mods[a].imports)
  {
  }

  lemma HealthyIsSilent(w: World, universe: set<Key>, sources: seq<Path>, requests: seq<Request>, ld: Loader,
                        answers: seq<Answer>, imports: seq<Import>)
    requires Outcomes(w, universe, sources, requests, ld, answers)
    requires Closed(ld.modules) && TargetsIn(ld.modules, imports) && Healthy(ld.modules, imports)
    requires forall i :: i in imports && i.target.Some? ==> i.diagnostic.None?
    ensures Visited(ld.modules, imports, {}).1 == []
  {
    hide Outcomes, Visited, Edge, Reach;
    var mods := ld.modules;
    forall i | i in imports ensures Fine(mods, i) {
      TargetFromImports(mods, imports, i);
    }
    forall k, i | k in Visited(mods, imports, {}).0 && k in mods && i in mods[k].imports ensures Fine(mods, i) {
      LoadedIsReached(mods, imports, k);
      if i.target.Some? {
        if i.diagnostic.Some? {
          DiagnosedImports(w, universe, sources, requests, ld, answers, k, i);
          assert false;
        }
        EdgeOf(mods, k, i);
        FromStep(mods, imports, k, i.target.value);
      }
    }
    SilentWhenFine(mods, imports);
  }

  lemma EdgeOf(mods: Modules, k: Key, i: Import)
    requires k in mods && i in mods[k].imports && i.target.Some?
    ensures Edge(mods, k, i.target.value)
  {
  }

  lemma TargetFromImports(mods: Modules, imports: seq<Import>, i: Import)
    requires i in imports
    ensures i.target.Some? ==> FromImports(mods, imports, i.target.value)
  {
    if i.target.Some? {
      ReachSelf(mods, i.target.value);
    }
  }

  /** No diagnostics come from an entry's imports exactly when every file in the import graph below
      it could be read and parsed and the graph has no cycle. */
  lemma SilentExactlyWhenHealthy(w: World, universe: set<Key>, sources: seq<Path>, requests: seq<Request>, ld: Loader,
                                 answers: seq<Answer>, j: nat)
    requires Outcomes(w, universe, sources, requests, ld, answers) && j < |requests| && requests[j].Entry?
    ensures |answers| == |requests| && answers[j].EntryImports?
    ensures Closed(ld.modules) && TargetsIn(ld.modules, answers[j].imports)
    ensures Visited(ld.modules, answers[j].imports, {}).1 == [] <==> Healthy(ld.modules, answers[j].imports)
  {
    hide Outcomes, Visited, Healthy, Closed, TargetsIn;
    WalkIsDefined(w, universe, sources, requests, ld, answers, j);
    var imports := answers[j].imports;
    if Visited(ld.modules, imports, {}).1 == [] {
      SilentIsHealthy(w, universe, sources, requests, ld, answers, imports);
    }
    if Healthy(ld.modules, imports) {
      EntryImportsAreNoCycle(w, universe, sources, requests, ld, answers, j);
      HealthyIsSilent(w, universe, sources, requests, ld, answers, imports);
    }
  }

  // ----- A single entry's program -----

  /** The user modules a program keeps. */
  function Retained(arena: seq<Key>, loaded: set<Key>): seq<Key> {
    if arena == [] then []
    else (if arena[0] in loaded then [arena[0]] else []) + Retained(arena[1..], loaded)
  }

  lemma {:induction false} AllRetained(arena: seq<Key>, loaded: set<Key>)
    requires forall k :: k in arena ==> k in loaded
    ensures Retained(arena, loaded) == arena
  {
    if arena == [] {
    } else {
      AllRetained(arena[1..], loaded);
    }
  }

  /** One key stands before another. */
  ghost predicate InOrder(arena: seq<Key>, k: Key, q: Key) {
    exists a, b :: 0 <= a < b < |arena| && arena[a] == k && arena[b] == q
  }

  ghost predicate AllInOrder(arena: seq<Key>, kept: seq<Key>) {
    forall i, j :: 0 <= i < j < |kept| ==> InOrder(arena, kept[i], kept[j])
  }

  lemma LaterInOrder(arena: seq<Key>, k: Key, q: Key)
    requires arena != []
    ensures InOrder(arena[1..], k, q) ==> InOrder(arena, k, q)
    ensures q in arena[1..] ==> InOrder(arena, arena[0], q)
  {
    var rest := arena[1..];
    if InOrder(rest, k, q) {
      var a, b :| 0 <= a < b < |rest| && rest[a] == k && rest[b] == q;
      assert arena[a + 1] == k && arena[b + 1] == q;
    }
    if q in rest {
      var b :| 0 <= b < |rest| && rest[b] == q;
      assert arena[b + 1] == q;
    }
  }

  /** The modules kept are those loaded, each once, in the arena's order. */
  lemma {:induction false} RetainedIsTheLoadedPart(arena: seq<Key>, loaded: set<Key>)
    requires Distinct(arena)
    ensures Distinct(Retained(arena, loaded)) && AllInOrder(arena, Retained(arena, loaded))
    ensures forall k :: k in Retained(arena, loaded) <==> k in arena && k in loaded
  {
    if arena != [] {
      hide InOrder;
      var rest := arena[1..];
      RetainedIsTheLoadedPart(rest, loaded);
      var kept, later := Retained(arena, loaded), Retained(rest, loaded);
      assert arena[0] !in rest;
      assert kept == if arena[0] in loaded then [arena[0]] + later else later;
      forall i, j | 0 <= i < j < |kept| ensures InOrder(arena, kept[i], kept[j]) {
        LaterInOrder(arena, kept[i], kept[j]);
        if arena[0] in loaded {
          assert kept[j] == later[j - 1];
          assert i > 0 ==> kept[i] == later[i - 1];
        }
      }
    }
  }

  /** An entry that loads silently on its own keeps every module that was loaded for it. */
  lemma NothingIsDropped(w: World, universe: set<Key>, sources: seq<Path>, request: Request, ld: Loader, answer: Answer)
    requires Outcomes(w, universe, sources, [request], ld, [answer]) && request.Entry?
    ensures answer.EntryImports? && Closed(ld.modules) && TargetsIn(ld.modules, answer.imports)
    ensures var (loaded, diagnostics) := Visited(ld.modules, answer.imports, {});
            diagnostics == [] ==> loaded == ld.modules.Keys && Retained(ld.arena, loaded) == ld.arena
  {
    hide Outcomes, Visited, Closed, TargetsIn, Reach;
    WalkIsDefined(w, universe, sources, [request], ld, [answer], 0);
    var (loaded, diagnostics) := Visited(ld.modules, answer.imports, {});
    if diagnostics == [] {
      forall k ensures k in loaded <==> k in ld.modules {
        ExactlyTheReachableAreLoaded(w, universe, sources, [request], ld, [answer], k);
        if k in ld.modules {
          var a, t :| a in [answer] && NamedBy(a, t) && Reach(ld.modules, t, k);
          var i :| i in answer.imports && i.target == Some(t);
          assert FromImports(ld.modules, answer.imports, k);
          FineGraphIsTaken(ld.modules, answer.imports, k);
        }
        if k in loaded {
          LoadedIsReached(ld.modules, answer.imports, k);
        }
      }
      DependenciesComeFirst(w, universe, sources, [request], ld, [answer]);
      AllRetained(ld.arena, loaded);
    }
  }
}
