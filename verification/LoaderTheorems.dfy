/** What a loader promises after any sequence of requests that ran to the end. */
module LoaderTheorems {
  import opened Options
  import opened ModuleKeys
  import opened LoaderSpec
  import opened LoaderGraph
  import opened LoaderRecords
  import opened LoaderSession

  /** The state and answers of a fresh loader after some requests. */
  ghost predicate Outcomes(w: World, universe: set<Key>, sources: seq<Path>, requests: seq<Request>, ld: Loader,
                           answers: seq<Answer>)
  {
    && Bounded(w, universe) && (forall q :: q in requests ==> InUniverse(w, universe, q))
    && exists polls :: Serve(w, universe, Empty(sources, polls), requests) == Done(ld, answers)
  }

  lemma EmptySession(w: World, given: Given, sources: seq<Path>, polls: nat)
    ensures Session(w, given, |sources|, Empty(sources, polls), [], [])
  {
  }

  lemma SessionHolds(w: World, universe: set<Key>, sources: seq<Path>, requests: seq<Request>, ld: Loader,
                     answers: seq<Answer>)
    requires Outcomes(w, universe, sources, requests, ld, answers)
    ensures Session(w, GivenBy(requests), |sources|, ld, requests, answers)
  {
    hide Session, InUniverse, Bounded, Serve;
    var polls :| Serve(w, universe, Empty(sources, polls), requests) == Done(ld, answers);
    EmptySession(w, GivenBy(requests), sources, polls);
    ServeKeeps(w, GivenBy(requests), universe, |sources|, Empty(sources, polls), [], [], requests);
    assert [] + requests == requests && [] + answers == answers;
  }

  // ----- Cycles -----

  /** Some path of imports leads from a module back to itself; one import of itself is enough. */
  ghost predicate Cyclic(mods: Modules) {
    exists a, b :: Edge(mods, a, b) && Reach(mods, b, a)
  }

  ghost predicate CycleReported(mods: Modules) {
    exists m, i :: m in mods && i in mods[m].imports && IsCycle(i)
  }

  /** Every import of `b` by `a` carries the cycle diagnostic. */
  ghost predicate EdgeReported(mods: Modules, a: Key, b: Key) {
    && a in mods
    && forall i :: i in mods[a].imports && i.target == Some(b) ==> i.diagnostic == Some(CycleDiagnostic(i.span))
  }

  lemma CleanEdgeDescends(ld: Loader, a: Key, b: Key) returns (i: nat, j: nat)
    requires LoaderInv(ld) && ld.stack == [] && Edge(ld.modules, a, b) && !EdgeReported(ld.modules, a, b)
    ensures j < i < |ld.arena| && ld.arena[i] == a && ld.arena[j] == b
  {
    assert a in ld.arena;
    i :| 0 <= i < |ld.arena| && ld.arena[i] == a;
    var c :| c in ld.modules[a].imports && c.target == Some(b) && c.diagnostic != Some(CycleDiagnostic(c.span));
    assert Settled(ld.modules, ld.arena[..i], c);
    assert b in ld.arena[..i];
    j :| 0 <= j < i && ld.arena[..i][j] == b;
  }

  /** Along a path without a reported edge the place in the arena sinks. */
  lemma {:induction false} CleanWalkDescends(ld: Loader, p: seq<Key>) returns (i: nat, j: nat)
    requires LoaderInv(ld) && ld.stack == [] && Walk(ld.modules, p) && |p| > 1
    requires forall n :: 0 <= n < |p| - 1 ==> !EdgeReported(ld.modules, p[n], p[n + 1])
    ensures j < i < |ld.arena| && ld.arena[i] == p[0] && ld.arena[j] == p[|p| - 1]
    decreases |p|
  {
    var k: nat;
    assert Edge(ld.modules, p[0], p[1]);
    i, k := CleanEdgeDescends(ld, p[0], p[1]);
    j := k;
    if |p| > 2 {
      var q := p[1..];
      forall n | 0 <= n < |q| - 1
        ensures Edge(ld.modules, q[n], q[n + 1]) && !EdgeReported(ld.modules, q[n], q[n + 1])
      {
        assert Edge(ld.modules, p[n + 1], p[n + 2]);
      }
      var i';
      i', j := CleanWalkDescends(ld, q);
      assert ld.arena[i'] == ld.arena[k];
    }
  }

  /** No cycle escapes: on every closed path there is an edge whose imports all carry the cycle
      diagnostic. */
  lemma EveryCycleIsReported(w: World, universe: set<Key>, sources: seq<Path>, requests: seq<Request>, ld: Loader,
                             answers: seq<Answer>, p: seq<Key>)
    requires Outcomes(w, universe, sources, requests, ld, answers)
    requires Walk(ld.modules, p) && |p| > 1 && p[0] == p[|p| - 1]
    ensures exists n :: 0 <= n < |p| - 1 && EdgeReported(ld.modules, p[n], p[n + 1])
  {
    SessionHolds(w, universe, sources, requests, ld, answers);
    if forall n :: 0 <= n < |p| - 1 ==> !EdgeReported(ld.modules, p[n], p[n + 1]) {
      var i, j := CleanWalkDescends(ld, p);
      assert false;
    }
  }

  /** The cycle diagnostic appears exactly when the recorded import graph has a directed cycle. */
  lemma CyclesAreReported(w: World, universe: set<Key>, sources: seq<Path>, requests: seq<Request>, ld: Loader,
                          answers: seq<Answer>)
    requires Outcomes(w, universe, sources, requests, ld, answers)
    ensures CycleReported(ld.modules) <==> Cyclic(ld.modules)
    ensures forall m, i :: m in ld.modules && i in ld.modules[m].imports && IsCycle(i) ==>
              Edge(ld.modules, m, i.target.value) && Reach(ld.modules, i.target.value, m)
  {
    hide Session, Outcomes, Walk, Edge, Reach, EdgeReported;
    SessionHolds(w, universe, sources, requests, ld, answers);
    if Cyclic(ld.modules) {
      var q := ClosedWalk(ld.modules);
      EveryCycleIsReported(w, universe, sources, requests, ld, answers, q);
      var n :| 0 <= n < |q| - 1 && EdgeReported(ld.modules, q[n], q[n + 1]);
      ReportedEdge(ld.modules, q, n);
    }
    ReportedCycles(w, |sources|, ld, requests, answers);
    assert forall m, i :: m in ld.modules && i in ld.modules[m].imports && IsCycle(i) ==>
             Edge(ld.modules, m, i.target.value) && Reach(ld.modules, i.target.value, m);
  }

  lemma ClosedWalk(mods: Modules) returns (q: seq<Key>)
    requires Cyclic(mods)
    ensures Walk(mods, q) && |q| > 1 && q[0] == q[|q| - 1]
  {
    var a, b :| Edge(mods, a, b) && Reach(mods, b, a);
    var p :| Walk(mods, p) && p[0] == b && p[|p| - 1] == a;
    q := [a] + p;
    forall n | 0 <= n < |q| - 1 ensures Edge(mods, q[n], q[n + 1]) {
      assert n > 0 ==> Edge(mods, p[n - 1], p[n]);
    }
  }

  lemma ReportedEdge(mods: Modules, q: seq<Key>, n: nat)
    requires Walk(mods, q) && n < |q| - 1 && EdgeReported(mods, q[n], q[n + 1])
    ensures CycleReported(mods)
  {
    assert Edge(mods, q[n], q[n + 1]);
    var i :| 0 <= i < |mods[q[n]].imports| && mods[q[n]].imports[i].target == Some(q[n + 1]);
    assert mods[q[n]].imports[i] in mods[q[n]].imports && IsCycle(mods[q[n]].imports[i]);
  }

  lemma ReportedCycles(w: World, base: nat, ld: Loader, requests: seq<Request>, answers: seq<Answer>)
    requires Session(w, GivenBy(requests), base, ld, requests, answers)
    ensures forall m, i :: m in ld.modules && i in ld.modules[m].imports && IsCycle(i) ==>
              Edge(ld.modules, m, i.target.value) && Reach(ld.modules, i.target.value, m)
  {
  }

  // ----- Order, reachability, sources, records -----

  /** Each module stands once in the arena, after all it imports without a diagnostic. */
  lemma DependenciesComeFirst(w: World, universe: set<Key>, sources: seq<Path>, requests: seq<Request>, ld: Loader,
                              answers: seq<Answer>)
    requires Outcomes(w, universe, sources, requests, ld, answers)
    ensures forall k :: k in ld.modules <==> k in ld.arena
    ensures forall i, j :: 0 <= i < j < |ld.arena| ==> ld.arena[i] != ld.arena[j]
    ensures forall n, i :: 0 <= n < |ld.arena| && i in ld.modules[ld.arena[n]].imports && IsClean(i) ==>
              i.target.value in ld.arena[..n]
  {
    SessionHolds(w, universe, sources, requests, ld, answers);
    forall n, i | 0 <= n < |ld.arena| && i in ld.modules[ld.arena[n]].imports && IsClean(i)
      ensures i.target.value in ld.arena[..n]
    {
      assert Settled(ld.modules, ld.arena[..n], i);
    }
  }

  lemma {:induction false} WalkStaysLoaded(ld: Loader, p: seq<Key>, n: nat)
    requires LoaderInv(ld) && ld.stack == [] && Walk(ld.modules, p) && p[0] in ld.modules && n < |p|
    ensures p[n] in ld.modules
  {
    if n > 0 {
      WalkStaysLoaded(ld, p, n - 1);
      var a, b := p[n - 1], p[n];
      assert Edge(ld.modules, a, b) && a in ld.arena;
      var i :| 0 <= i < |ld.modules[a].imports| && ld.modules[a].imports[i].target == Some(b);
      var place :| 0 <= place < |ld.arena| && ld.arena[place] == a;
      assert Settled(ld.modules, ld.arena[..place], ld.modules[a].imports[i]);
    }
  }

  /** Exactly the modules that can be reached from what was asked for are loaded. */
  lemma ExactlyTheReachableAreLoaded(w: World, universe: set<Key>, sources: seq<Path>, requests: seq<Request>,
                                     ld: Loader, answers: seq<Answer>, k: Key)
    requires Outcomes(w, universe, sources, requests, ld, answers)
    ensures k in ld.modules <==> AskedFor(ld.modules, answers, k)
  {
    SessionHolds(w, universe, sources, requests, ld, answers);
    if AskedFor(ld.modules, answers, k) {
      var a, t :| a in answers && NamedBy(a, t) && Reach(ld.modules, t, k);
      AnswersAreLoaded(w, ld, requests, answers, a, t);
      var p :| Walk(ld.modules, p) && p[0] == t && p[|p| - 1] == k;
      WalkStaysLoaded(ld, p, |p| - 1);
    }
  }

  lemma AnswersAreLoaded(w: World, ld: Loader, requests: seq<Request>, answers: seq<Answer>, a: Answer, t: Key)
    requires AllAnswered(w, ld, requests, answers) && a in answers && NamedBy(a, t)
    ensures t in ld.modules
  {
  }

  /** Every recorded target is there when the recorded imports are walked later. */
  lemma TargetsArePresent(w: World, universe: set<Key>, sources: seq<Path>, requests: seq<Request>, ld: Loader,
                          answers: seq<Answer>)
    requires Outcomes(w, universe, sources, requests, ld, answers)
    ensures forall m, i :: m in ld.modules && i in ld.modules[m].imports && i.target.Some? ==>
              i.target.value in ld.modules
    ensures forall a, t :: a in answers && NamedBy(a, t) ==> t in ld.modules
  {
    SessionHolds(w, universe, sources, requests, ld, answers);
    forall m, i | m in ld.modules && i in ld.modules[m].imports && i.target.Some? ensures i.target.value in ld.modules {
      assert m in ld.arena;
      var n :| 0 <= n < |ld.arena| && ld.arena[n] == m;
      assert Settled(ld.modules, ld.arena[..n], i);
    }
    forall a, t | a in answers && NamedBy(a, t) ensures t in ld.modules {
      AnswersAreLoaded(w, ld, requests, answers, a, t);
    }
  }

  /** Each module adds one source of its own, and nothing else adds any. */
  lemma OneSourceEach(w: World, universe: set<Key>, sources: seq<Path>, requests: seq<Request>, ld: Loader,
                      answers: seq<Answer>)
    requires Outcomes(w, universe, sources, requests, ld, answers)
    ensures |ld.sources| == |sources| + |ld.modules|
    ensures forall k :: k in ld.modules ==>
              ld.modules[k].source < |ld.sources| && ld.sources[ld.modules[k].source] == ld.modules[k].path
    ensures forall k, q :: k in ld.modules && q in ld.modules && ld.modules[k].source == ld.modules[q].source ==> k == q
  {
    SessionHolds(w, universe, sources, requests, ld, answers);
  }

  /** Every module's diagnostics and imports, and every entry's imports, are what its file says: one
      import for each `use`, in order, resolved as the resolver answers. */
  lemma RecordsAreFaithful(w: World, universe: set<Key>, sources: seq<Path>, requests: seq<Request>, ld: Loader,
                           answers: seq<Answer>)
    requires Outcomes(w, universe, sources, requests, ld, answers)
    ensures forall k :: k in ld.modules ==>
              ModuleRecorded(w, GivenBy(requests), ld.ids, ld.modules[k]) && ld.modules[k].key == k
    ensures |answers| == |requests|
    ensures forall j :: 0 <= j < |requests| && requests[j].Entry? ==>
              && answers[j].EntryImports?
              && Recorded(w, ld.ids, requests[j].importer, requests[j].roots, Uses(requests[j].statements),
                          answers[j].imports)
  {
    hide ModuleRecorded, Recorded;
    SessionHolds(w, universe, sources, requests, ld, answers);
    assert forall j :: 0 <= j < |requests| ==> Answered(w, ld, requests[j], answers[j]);
  }
}
