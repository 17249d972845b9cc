/** The second walk over a finished load: which diagnostics an entry reports, and which modules
    belong to its program. Reporting stops below a module that failed to parse. */
module RuntimeLoading {
  import opened ModuleKeys
  import opened LoaderSpec

  /** Recorded targets can be looked up, under their own keys. */
  ghost predicate TargetsIn(mods: Modules, imports: seq<Import>) {
    forall i :: i in imports && i.target.Some? ==> i.target.value in mods
  }

  ghost predicate Closed(mods: Modules) {
    forall k :: k in mods ==> mods[k].key == k && TargetsIn(mods, mods[k].imports)
  }

  predicate Undecodable(diagnostics: seq<Diagnostic>) {
    exists d :: d in diagnostics && d.code == InvalidUtf8
  }

  function LoadFailed(span: nat, path: Path): Diagnostic {
    Diagnostic(ModuleLoad, span, "`" + path + "` has parse errors")
  }

  /** What a module that failed to parse contributes. */
  function Failure(i: Import, m: Module): seq<Diagnostic> {
    (if Undecodable(m.diagnostics) then [] else [LoadFailed(i.span, m.path)]) + m.diagnostics
  }

  /** The modules added to `loaded`, and the diagnostics found, in the order of the walk. */
  function Visited(mods: Modules, imports: seq<Import>, loaded: set<Key>): (r: (set<Key>, seq<Diagnostic>))
    requires Closed(mods) && TargetsIn(mods, imports)
    ensures loaded <= r.0
    decreases mods.Keys - loaded, |imports|
  {
    if imports == [] then (loaded, [])
    else
      var (now, found) := VisitedOne(mods, imports[0], loaded);
      var (after, rest) := Visited(mods, imports[1..], now);
      (after, found + rest)
  }

  function VisitedOne(mods: Modules, i: Import, loaded: set<Key>): (r: (set<Key>, seq<Diagnostic>))
    requires Closed(mods) && TargetsIn(mods, [i])
    ensures loaded <= r.0
    decreases mods.Keys - loaded, 0
  {
    assert i in [i];
    if i.diagnostic.Some? then (loaded, [i.diagnostic.value])
    else if i.target.None? then (loaded, [])
    else
      var m := mods[i.target.value];
      if m.diagnostics != [] then (loaded, Failure(i, m))
      else if m.key in loaded then (loaded, [])
      else Visited(mods, m.imports, loaded + {m.key})
  }

  /** The walker's two collections, filled while it recurses. */
  class Walker {
    var loaded: set<Key>
    var diagnostics: seq<Diagnostic>

    constructor ()
      ensures loaded == {} && diagnostics == []
    {
      loaded, diagnostics := {}, [];
    }

    method Visit(imports: seq<Import>, mods: Modules)
      requires Closed(mods) && TargetsIn(mods, imports)
      modifies this
      ensures loaded == Visited(mods, imports, old(loaded)).0
      ensures diagnostics == old(diagnostics) + Visited(mods, imports, old(loaded)).1
      decreases mods.Keys - loaded
    {
      hide Visited, VisitedOne, Closed, TargetsIn, Undecodable, LoadFailed;
      ghost var start, before := loaded, diagnostics;
      var n := 0;
      assert imports[0..] == imports;
      while n < |imports|
        invariant 0 <= n <= |imports| && start <= loaded && TargetsIn(mods, imports[n..])
        invariant Visited(mods, imports, start).0 == Visited(mods, imports[n..], loaded).0
        invariant before + Visited(mods, imports, start).1 == diagnostics + Visited(mods, imports[n..], loaded).1
      {
        var i := imports[n];
        ghost var here, found := loaded, diagnostics;
        VisitedNext(mods, imports, n, here);
        VisitedHere(mods, i, here);
        if i.diagnostic.Some? {
          diagnostics := diagnostics + [i.diagnostic.value];
        } else if i.target.Some? {
          var m := mods[i.target.value];
          if m.diagnostics != [] {
            if !Undecodable(m.diagnostics) {
              diagnostics := diagnostics + [LoadFailed(i.span, m.path)];
            }
            diagnostics := diagnostics + m.diagnostics;
          } else if m.key !in loaded {
            loaded := loaded + {m.key};
            Visit(m.imports, mods);
          }
        }
        assert loaded == VisitedOne(mods, i, here).0 && diagnostics == found + VisitedOne(mods, i, here).1;
        n := n + 1;
      }
      VisitedNothing(mods, loaded);
      assert imports[|imports|..] == [];
    }
  }

  lemma VisitedNothing(mods: Modules, loaded: set<Key>)
    requires Closed(mods)
    ensures TargetsIn(mods, []) && Visited(mods, [], loaded) == (loaded, [])
  {
  }

  /** One import, then the rest. */
  lemma VisitedNext(mods: Modules, imports: seq<Import>, n: nat, loaded: set<Key>)
    requires Closed(mods) && n < |imports| && TargetsIn(mods, imports[n..])
    ensures TargetsIn(mods, [imports[n]]) && TargetsIn(mods, imports[n + 1..])
    ensures var one := VisitedOne(mods, imports[n], loaded);
            var rest := Visited(mods, imports[n + 1..], one.0);
            Visited(mods, imports[n..], loaded) == (rest.0, one.1 + rest.1)
  {
    assert imports[n..][1..] == imports[n + 1..] && imports[n..][0] == imports[n];
  }

  /** What one import brings. */
  lemma VisitedHere(mods: Modules, i: Import, loaded: set<Key>)
    requires Closed(mods) && TargetsIn(mods, [i])
    ensures i.target.Some? ==>
              i.target.value in mods && mods[i.target.value].key == i.target.value
              && TargetsIn(mods, mods[i.target.value].imports)
    ensures var one := VisitedOne(mods, i, loaded);
            if i.diagnostic.Some? then one == (loaded, [i.diagnostic.value])
            else if i.target.None? then one == (loaded, [])
            else
              var m := mods[i.target.value];
              if m.diagnostics != [] then
                var said := if Undecodable(m.diagnostics) then [] else [LoadFailed(i.span, m.path)];
                one == (loaded, said + m.diagnostics)
              else if m.key in loaded then one == (loaded, [])
              else one == Visited(mods, m.imports, loaded + {m.key})
  {
    assert i in [i];
  }
}
