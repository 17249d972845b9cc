/** When an entry's imports load without a diagnostic, and what its program then contains. */
module RuntimeTheorems {
  import opened Options
  import opened ModuleKeys
  import opened LoaderSpec
  import opened LoaderGraph
  import opened RuntimeLoading

  /** An import the walk passes through: resolved, not diagnosed, to a module that parsed. */
  ghost predicate Passes(mods: Modules, i: Import) {
    IsClean(i) && i.target.value in mods && mods[i.target.value].diagnostics == []
  }

  /** An import the walk has nothing to report for. */
  ghost predicate Fine(mods: Modules, i: Import) {
    i.diagnostic.None? && (i.target.Some? && i.target.value in mods ==> mods[i.target.value].diagnostics == [])
  }

  ghost predicate AllFine(mods: Modules, imports: seq<Import>) {
    forall i :: i in imports ==> Fine(mods, i)
  }

  // ----- The modules the walk takes in -----

  ghost predicate Passage(mods: Modules, imports: seq<Import>, k: Key) {
    exists i :: i in imports && Passes(mods, i) && i.target.value == k
  }

  /** A path of keys each of which is let through by an import of the one before it. */
  ghost predicate CleanPath(mods: Modules, imports: seq<Import>, p: seq<Key>)
    decreases |p|
  {
    && p != [] && Passage(mods, imports, p[0])
    && (|p| > 1 ==> p[0] in mods && CleanPath(mods, mods[p[0]].imports, p[1..]))
  }

  ghost predicate CleanlyReached(mods: Modules, imports: seq<Import>, k: Key) {
    exists p :: CleanPath(mods, imports, p) && p[|p| - 1] == k
  }

  /** What the walk adds lies on clean paths, and is closed under clean imports. */
  ghost predicate AddsCleanly(mods: Modules, imports: seq<Import>, loaded: set<Key>, after: set<Key>) {
    && loaded <= after
    && (forall k :: k in after && k !in loaded ==> k in mods && CleanlyReached(mods, imports, k))
    && (forall k, t :: k in after && k !in loaded && k in mods && Passage(mods, mods[k].imports, t) ==> t in after)
    && (forall t :: Passage(mods, imports, t) ==> t in after)
  }

  lemma {:induction false} PassageWidens(mods: Modules, imports: seq<Import>, wider: seq<Import>, k: Key)
    requires (forall i :: i in imports ==> i in wider) && CleanlyReached(mods, imports, k)
    ensures CleanlyReached(mods, wider, k)
  {
  }

  lemma {:induction false} PassOne(mods: Modules, i: Import, k: Key)
    requires Passes(mods, i) && CleanlyReached(mods, mods[i.target.value].imports, k)
    ensures CleanlyReached(mods, [i], k)
  {
    var p :| CleanPath(mods, mods[i.target.value].imports, p) && p[|p| - 1] == k;
    var q := [i.target.value] + p;
    assert q[1..] == p && q[|q| - 1] == k;
    assert i in [i];
    assert Passage(mods, [i], q[0]);
    assert CleanPath(mods, [i], q);
  }

  lemma {:induction false} VisitedAdds(mods: Modules, imports: seq<Import>, loaded: set<Key>)
    requires Closed(mods) && TargetsIn(mods, imports)
    ensures AddsCleanly(mods, imports, loaded, Visited(mods, imports, loaded).0)
    decreases mods.Keys - loaded, |imports|
  {
    if imports != [] {
      hide CleanlyReached, Closed, Passes;
      var i := imports[0];
      var now := VisitedOne(mods, i, loaded).0;
      VisitedOneAdds(mods, i, loaded);
      VisitedAdds(mods, imports[1..], now);
      var after := Visited(mods, imports[1..], now).0;
      assert forall j :: j in imports <==> j in [i] || j in imports[1..];
      forall k | k in after && k !in loaded ensures k in mods && CleanlyReached(mods, imports, k) {
        if k in now {
          PassageWidens(mods, [i], imports, k);
        } else {
          PassageWidens(mods, imports[1..], imports, k);
        }
      }
      forall t | Passage(mods, imports, t) ensures t in after {
        assert Passage(mods, [i], t) || Passage(mods, imports[1..], t);
      }
    }
  }

  lemma {:induction false} VisitedOneAdds(mods: Modules, i: Import, loaded: set<Key>)
    requires Closed(mods) && TargetsIn(mods, [i])
    ensures AddsCleanly(mods, [i], loaded, VisitedOne(mods, i, loaded).0)
    decreases mods.Keys - loaded, 0
  {
    assert i in [i];
    if Passes(mods, i) && i.target.value !in loaded {
      var key := i.target.value;
      var inner := mods[key].imports;
      VisitedAdds(mods, inner, loaded + {key});
      var after := VisitedOne(mods, i, loaded).0;
      assert CleanPath(mods, [i], [key]);
      forall k | k in after && k !in loaded ensures k in mods && CleanlyReached(mods, [i], k) {
        if k == key {
          assert [key][|[key]| - 1] == k;
        } else {
          PassOne(mods, i, k);
        }
      }
    }
  }

  lemma {:induction false} CleanPathTaken(mods: Modules, imports: seq<Import>, start: seq<Import>, p: seq<Key>,
                                          loaded: set<Key>)
    requires AddsCleanly(mods, start, {}, loaded)
    requires (forall t :: Passage(mods, imports, t) ==> t in loaded) && CleanPath(mods, imports, p)
    ensures p[|p| - 1] in loaded
    decreases |p|
  {
    hide Passage, CleanlyReached;
    if |p| > 1 {
      CleanPathTaken(mods, mods[p[0]].imports, start, p[1..], loaded);
    }
  }

  /** The walk takes in exactly the modules reached by clean imports through modules that parsed. */
  lemma LoadedIsCleanlyReached(mods: Modules, imports: seq<Import>, k: Key)
    requires Closed(mods) && TargetsIn(mods, imports)
    ensures k in Visited(mods, imports, {}).0 <==> CleanlyReached(mods, imports, k)
  {
    VisitedAdds(mods, imports, {});
    if CleanlyReached(mods, imports, k) {
      var p :| CleanPath(mods, imports, p) && p[|p| - 1] == k;
      CleanPathTaken(mods, imports, imports, p, Visited(mods, imports, {}).0);
    }
  }

  // ----- What the walk reports -----

  /** An import of a module that failed to parse. */
  ghost predicate FailsAt(mods: Modules, i: Import) {
    i.diagnostic.None? && i.target.Some? && i.target.value in mods && mods[i.target.value].diagnostics != []
  }

  /** That loading failed is said at the import, unless the module could not even be decoded. */
  ghost predicate SaysLoadFailed(mods: Modules, i: Import, d: Diagnostic)
    requires FailsAt(mods, i)
  {
    var m := mods[i.target.value];
    && d == Diagnostic(ModuleLoad, i.span, "`" + m.path + "` has parse errors")
    && forall own :: own in m.diagnostics ==> own.code != InvalidUtf8
  }

  /** An import the walk looks at contributes a diagnostic: its own, or those of a module that failed, and
      that it failed. */
  ghost predicate Reports(mods: Modules, i: Import, d: Diagnostic) {
    if i.diagnostic.Some? then d == i.diagnostic.value
    else FailsAt(mods, i) && (d in mods[i.target.value].diagnostics || SaysLoadFailed(mods, i, d))
  }

  ghost predicate SomeReports(mods: Modules, imports: seq<Import>, d: Diagnostic) {
    exists i :: i in imports && Reports(mods, i, d)
  }

  ghost predicate AddedReports(mods: Modules, loaded: set<Key>, after: set<Key>, d: Diagnostic) {
    exists k :: k in after && k !in loaded && k in mods && SomeReports(mods, mods[k].imports, d)
  }

  ghost predicate ReportsExactly(mods: Modules, imports: seq<Import>, loaded: set<Key>,
                                 r: (set<Key>, seq<Diagnostic>))
  {
    forall d :: d in r.1 <==> SomeReports(mods, imports, d) || AddedReports(mods, loaded, r.0, d)
  }

  lemma {:induction false} VisitedReports(mods: Modules, imports: seq<Import>, loaded: set<Key>)
    requires Closed(mods) && TargetsIn(mods, imports)
    ensures ReportsExactly(mods, imports, loaded, Visited(mods, imports, loaded))
    decreases mods.Keys - loaded, |imports|
  {
    if imports != [] {
      hide Reports, Closed;
      var i := imports[0];
      var one := VisitedOne(mods, i, loaded);
      VisitedOneReports(mods, i, loaded);
      VisitedReports(mods, imports[1..], one.0);
      var rest := Visited(mods, imports[1..], one.0);
      assert forall j :: j in imports <==> j in [i] || j in imports[1..];
      forall d ensures d in one.1 + rest.1 <==> SomeReports(mods, imports, d) || AddedReports(mods, loaded, rest.0, d) {
        assert SomeReports(mods, imports, d) <==> SomeReports(mods, [i], d) || SomeReports(mods, imports[1..], d);
        assert AddedReports(mods, loaded, rest.0, d) <==>
               AddedReports(mods, loaded, one.0, d) || AddedReports(mods, one.0, rest.0, d);
      }
    }
  }

  lemma {:induction false} VisitedOneReports(mods: Modules, i: Import, loaded: set<Key>)
    requires Closed(mods) && TargetsIn(mods, [i])
    ensures ReportsExactly(mods, [i], loaded, VisitedOne(mods, i, loaded))
    decreases mods.Keys - loaded, 0
  {
    assert i in [i];
    assert forall d :: SomeReports(mods, [i], d) <==> Reports(mods, i, d);
    if Passes(mods, i) && i.target.value !in loaded {
      var key := i.target.value;
      VisitedReports(mods, mods[key].imports, loaded + {key});
      var r := VisitedOne(mods, i, loaded);
      forall d ensures d in r.1 <==> AddedReports(mods, loaded, r.0, d) {
        assert AddedReports(mods, loaded, r.0, d) <==>
               SomeReports(mods, mods[key].imports, d) || AddedReports(mods, loaded + {key}, r.0, d);
      }
    }
  }

  /** The diagnostics of a walk are those of the entry's imports and of the imports of the modules
      it takes in, and no others. */
  lemma ReportedDiagnostics(mods: Modules, imports: seq<Import>, d: Diagnostic)
    requires Closed(mods) && TargetsIn(mods, imports)
    ensures d in Visited(mods, imports, {}).1 <==>
            || SomeReports(mods, imports, d)
            || exists k :: CleanlyReached(mods, imports, k) && k in mods && SomeReports(mods, mods[k].imports, d)
  {
    VisitedReports(mods, imports, {});
    forall k ensures k in Visited(mods, imports, {}).0 <==> CleanlyReached(mods, imports, k) {
      LoadedIsCleanlyReached(mods, imports, k);
    }
  }

  // ----- In what order -----

  ghost predicate StandsAt(part: seq<Diagnostic>, whole: seq<Diagnostic>, i: nat) {
    i + |part| <= |whole| && whole[i..i + |part|] == part
  }

  ghost predicate Within(part: seq<Diagnostic>, whole: seq<Diagnostic>) {
    exists i :: StandsAt(part, whole, i)
  }

  /** What is found for an import of a module that failed stands together in a report: that it failed,
      if it could be decoded, and directly after that why. */
  ghost predicate StandsTogether(mods: Modules, i: Import, report: seq<Diagnostic>)
    requires FailsAt(mods, i)
  {
    var own := mods[i.target.value].diagnostics;
    && Within(own, report)
    && ((forall d :: d in own ==> d.code != InvalidUtf8) ==>
          exists d :: SaysLoadFailed(mods, i, d) && Within([d] + own, report))
  }

  ghost predicate AllTogether(mods: Modules, imports: seq<Import>, report: seq<Diagnostic>) {
    forall i :: i in imports && FailsAt(mods, i) ==> StandsTogether(mods, i, report)
  }

  ghost predicate AddedTogether(mods: Modules, loaded: set<Key>, after: set<Key>, report: seq<Diagnostic>) {
    forall k :: k in after && k !in loaded && k in mods ==> AllTogether(mods, mods[k].imports, report)
  }

  lemma WithinMore(part: seq<Diagnostic>, a: seq<Diagnostic>, whole: seq<Diagnostic>, b: seq<Diagnostic>)
    requires Within(part, whole)
    ensures Within(part, a + whole + b)
  {
    var i :| StandsAt(part, whole, i);
    assert StandsAt(part, a + whole + b, |a| + i);
  }

  lemma TogetherInMore(mods: Modules, i: Import, a: seq<Diagnostic>, report: seq<Diagnostic>, b: seq<Diagnostic>)
    requires FailsAt(mods, i) && StandsTogether(mods, i, report)
    ensures StandsTogether(mods, i, a + report + b)
  {
    hide Within;
    var own := mods[i.target.value].diagnostics;
    WithinMore(own, a, report, b);
    if forall d :: d in own ==> d.code != InvalidUtf8 {
      var d :| SaysLoadFailed(mods, i, d) && Within([d] + own, report);
      WithinMore([d] + own, a, report, b);
    }
  }

  lemma {:induction false} VisitedTogether(mods: Modules, imports: seq<Import>, loaded: set<Key>)
    requires Closed(mods) && TargetsIn(mods, imports)
    ensures var r := Visited(mods, imports, loaded);
            AllTogether(mods, imports, r.1) && AddedTogether(mods, loaded, r.0, r.1)
    decreases mods.Keys - loaded, |imports|
  {
    if imports != [] {
      hide FailsAt, StandsTogether, Closed;
      var one := VisitedOne(mods, imports[0], loaded);
      VisitedOneTogether(mods, imports[0], loaded);
      VisitedTogether(mods, imports[1..], one.0);
      var rest := Visited(mods, imports[1..], one.0);
      assert forall i :: i in imports <==> i in [imports[0]] || i in imports[1..];
      forall i | FailsAt(mods, i)
        ensures StandsTogether(mods, i, one.1) ==> StandsTogether(mods, i, one.1 + rest.1)
        ensures StandsTogether(mods, i, rest.1) ==> StandsTogether(mods, i, one.1 + rest.1)
      {
        assert [] + one.1 + rest.1 == one.1 + rest.1 == one.1 + rest.1 + [];
        if StandsTogether(mods, i, one.1) {
          TogetherInMore(mods, i, [], one.1, rest.1);
        }
        if StandsTogether(mods, i, rest.1) {
          TogetherInMore(mods, i, one.1, rest.1, []);
        }
      }
    }
  }

  lemma {:induction false} VisitedOneTogether(mods: Modules, i: Import, loaded: set<Key>)
    requires Closed(mods) && TargetsIn(mods, [i])
    ensures var r := VisitedOne(mods, i, loaded);
            AllTogether(mods, [i], r.1) && AddedTogether(mods, loaded, r.0, r.1)
    decreases mods.Keys - loaded, 0
  {
    assert i in [i];
    if FailsAt(mods, i) {
      FailureTogether(mods, i, loaded);
    } else if Passes(mods, i) && i.target.value !in loaded {
      var key := i.target.value;
      VisitedTogether(mods, mods[key].imports, loaded + {key});
    }
  }

  lemma FailureTogether(mods: Modules, i: Import, loaded: set<Key>)
    requires Closed(mods) && TargetsIn(mods, [i]) && FailsAt(mods, i)
    ensures var r := VisitedOne(mods, i, loaded);
            r.0 == loaded && StandsTogether(mods, i, r.1)
  {
    var own, found := mods[i.target.value].diagnostics, VisitedOne(mods, i, loaded).1;
    assert own[..] == own;
    if forall d :: d in own ==> d.code != InvalidUtf8 {
      var d := found[0];
      assert found == [d] + own && SaysLoadFailed(mods, i, d);
      assert StandsAt([d] + own, found, 0) && StandsAt(own, found, 1);
    } else {
      assert StandsAt(own, found, 0);
    }
  }

  /** Wherever a walk meets an import of a module that failed to parse, what it finds there stands
      together in its report: first, at the import, that the module failed, unless it could not even be
      decoded; then the module's own diagnostics. */
  lemma FailuresStandTogether(mods: Modules, imports: seq<Import>)
    requires Closed(mods) && TargetsIn(mods, imports)
    ensures AllTogether(mods, imports, Visited(mods, imports, {}).1)
    ensures forall k :: CleanlyReached(mods, imports, k) && k in mods ==>
                          AllTogether(mods, mods[k].imports, Visited(mods, imports, {}).1)
  {
    VisitedTogether(mods, imports, {});
    forall k ensures k in Visited(mods, imports, {}).0 <==> CleanlyReached(mods, imports, k) {
      LoadedIsCleanlyReached(mods, imports, k);
    }
  }

  /** Reports come in the order of the imports, and a module's at the place of its first clean import. */
  lemma {:induction false} ReportsComeInOrder(mods: Modules, a: seq<Import>, i: Import, b: seq<Import>,
                                              loaded: set<Key>)
    requires Closed(mods) && TargetsIn(mods, a) && TargetsIn(mods, [i]) && TargetsIn(mods, b)
    ensures TargetsIn(mods, a + [i] + b)
    ensures var (before, first) := Visited(mods, a, loaded);
            var inside := i.diagnostic.None? && i.target.Some? && i.target.value !in before
                          && i.target.value in mods && mods[i.target.value].diagnostics == [];
            var (here, found) := if inside
                                 then Visited(mods, mods[i.target.value].imports, before + {i.target.value})
                                 else Visited(mods, [i], before);
            var (after, last) := Visited(mods, b, here);
            Visited(mods, a + [i] + b, loaded) == (after, first + found + last)
    decreases |a|
  {
    assert i in [i];
    assert TargetsIn(mods, a + [i] + b);
    var (before, first) := Visited(mods, a, loaded);
    VisitedAlone(mods, i, before);
    if a == [] {
      assert a + [i] + b == [i] + b && ([i] + b)[1..] == b;
      assert first == [] && [] + VisitedOne(mods, i, before).1 == VisitedOne(mods, i, before).1;
    } else {
      var one, whole := VisitedOne(mods, a[0], loaded), a + [i] + b;
      assert whole[1..] == a[1..] + [i] + b && whole[0] == a[0];
      ReportsComeInOrder(mods, a[1..], i, b, one.0);
      hide VisitedOne;
      var found := VisitedOne(mods, i, before);
      Associated(one.1, Visited(mods, a[1..], one.0).1, found.1, Visited(mods, b, found.0).1);
    }
  }

  lemma Associated(a: seq<Diagnostic>, b: seq<Diagnostic>, c: seq<Diagnostic>, d: seq<Diagnostic>)
    ensures a + (b + c + d) == a + b + c + d
  {
  }

  lemma VisitedAlone(mods: Modules, i: Import, loaded: set<Key>)
    requires Closed(mods) && TargetsIn(mods, [i])
    ensures Visited(mods, [i], loaded) == VisitedOne(mods, i, loaded)
  {
    var one := VisitedOne(mods, i, loaded);
    assert [i][1..] == [] && Visited(mods, [], one.0) == (one.0, []);
    assert one.1 + [] == one.1;
  }

  /** The walk is silent exactly when everything it looks at is fine. */
  lemma SilentWhenFine(mods: Modules, imports: seq<Import>)
    requires Closed(mods) && TargetsIn(mods, imports)
    ensures Visited(mods, imports, {}).1 == [] <==>
            && AllFine(mods, imports)
            && forall k :: k in Visited(mods, imports, {}).0 && k in mods ==> AllFine(mods, mods[k].imports)
  {
    hide Reports, Fine, Closed, Visited;
    var (none, r) := ({}, Visited(mods, imports, {}));
    VisitedReports(mods, imports, none);
    NothingToReport(mods, imports);
    forall k | k in r.0 && k in mods && r.1 == [] ensures AllFine(mods, mods[k].imports) {
      NothingToReport(mods, mods[k].imports);
      assert k !in none;
      assert forall d :: SomeReports(mods, mods[k].imports, d) ==> AddedReports(mods, none, r.0, d);
    }
    if r.1 != [] && AllFine(mods, imports) {
      var d := r.1[0];
      assert d in r.1 && !SomeReports(mods, imports, d);
      var k :| k in r.0 && k !in none && k in mods && SomeReports(mods, mods[k].imports, d);
      NothingToReport(mods, mods[k].imports);
    }
  }

  lemma NothingToReport(mods: Modules, imports: seq<Import>)
    ensures AllFine(mods, imports) <==> forall d :: !SomeReports(mods, imports, d)
  {
    forall i | i in imports && !Fine(mods, i) ensures exists d :: SomeReports(mods, imports, d) {
      var d := if i.diagnostic.Some? then i.diagnostic.value else mods[i.target.value].diagnostics[0];
      assert Reports(mods, i, d);
      assert SomeReports(mods, imports, d);
    }
  }

  // ----- The entry's whole import graph -----

  /** No candidate file of these imports was there but unreadable. */
  ghost predicate Readable(imports: seq<Import>) {
    forall i :: i in imports && i.target.None? ==> i.diagnostic.None?
  }

  /** Nothing in the graph below an entry stops it: no unreadable file, no parse error, no cycle. */
  ghost predicate Healthy(mods: Modules, imports: seq<Import>) {
    && Readable(imports)
    && (forall k :: k in mods && FromImports(mods, imports, k) ==>
          mods[k].diagnostics == [] && Readable(mods[k].imports))
    && !exists a, b :: FromImports(mods, imports, a) && Edge(mods, a, b) && Reach(mods, b, a)
  }

  lemma FromStep(mods: Modules, imports: seq<Import>, a: Key, b: Key)
    requires FromImports(mods, imports, a) && Edge(mods, a, b)
    ensures FromImports(mods, imports, b)
  {
    var i :| i in imports && i.target.Some? && Reach(mods, i.target.value, a);
    var p :| Walk(mods, p) && p[0] == i.target.value && p[|p| - 1] == a;
    var q := p + [b];
    forall n | 0 <= n < |q| - 1 ensures Edge(mods, q[n], q[n + 1]) {
      assert n < |p| - 1 ==> Edge(mods, p[n], p[n + 1]);
    }
    assert Walk(mods, q) && q[0] == i.target.value && q[|q| - 1] == b;
  }

  /** Clean paths are paths. */
  lemma {:induction false} CleanPathIsPath(mods: Modules, imports: seq<Import>, p: seq<Key>)
    requires CleanPath(mods, imports, p)
    ensures Walk(mods, p) && FromImports(mods, imports, p[|p| - 1])
    ensures p[|p| - 1] in mods && mods[p[|p| - 1]].diagnostics == []
    decreases |p|
  {
    var i :| i in imports && Passes(mods, i) && i.target.value == p[0];
    if |p| > 1 {
      var inner := mods[p[0]].imports;
      CleanPathIsPath(mods, inner, p[1..]);
      var j :| j in inner && Passes(mods, j) && j.target.value == p[1];
      assert Edge(mods, p[0], p[1]);
      forall n | 0 <= n < |p| - 1 ensures Edge(mods, p[n], p[n + 1]) {
        assert n > 0 ==> Edge(mods, p[1..][n - 1], p[1..][n]);
      }
    }
    assert Walk(mods, p);
    assert Reach(mods, i.target.value, p[|p| - 1]);
  }

  lemma LoadedIsReached(mods: Modules, imports: seq<Import>, k: Key)
    requires Closed(mods) && TargetsIn(mods, imports) && k in Visited(mods, imports, {}).0
    ensures k in mods && FromImports(mods, imports, k) && mods[k].diagnostics == []
  {
    VisitedAdds(mods, imports, {});
    var p :| CleanPath(mods, imports, p) && p[|p| - 1] == k;
    CleanPathIsPath(mods, imports, p);
  }

  /** When all is fine the walk goes everywhere. */
  lemma {:induction false} FineWalkIsTaken(mods: Modules, imports: seq<Import>, p: seq<Key>, n: nat)
    requires Closed(mods) && TargetsIn(mods, imports) && Visited(mods, imports, {}).1 == []
    requires Walk(mods, p) && n < |p| && p[0] in Visited(mods, imports, {}).0
    ensures p[n] in Visited(mods, imports, {}).0
  {
    hide Visited, CleanlyReached;
    if n > 0 {
      FineWalkIsTaken(mods, imports, p, n - 1);
      SilentWhenFine(mods, imports);
      VisitedAdds(mods, imports, {});
      assert Edge(mods, p[n - 1], p[n]);
      var inner := mods[p[n - 1]].imports;
      var i :| 0 <= i < |inner| && inner[i].target == Some(p[n]);
      assert inner[i] in inner && Fine(mods, inner[i]) && Passes(mods, inner[i]);
      assert Passage(mods, inner, p[n]);
    }
  }

  lemma FineGraphIsTaken(mods: Modules, imports: seq<Import>, k: Key)
    requires Closed(mods) && TargetsIn(mods, imports) && Visited(mods, imports, {}).1 == []
    requires FromImports(mods, imports, k)
    ensures k in Visited(mods, imports, {}).0
  {
    var i :| i in imports && i.target.Some? && Reach(mods, i.target.value, k);
    SilentWhenFine(mods, imports);
    VisitedAdds(mods, imports, {});
    assert Fine(mods, i) && Passes(mods, i);
    assert Passage(mods, imports, i.target.value);
    var p :| Walk(mods, p) && p[0] == i.target.value && p[|p| - 1] == k;
    FineWalkIsTaken(mods, imports, p, |p| - 1);
  }
}
