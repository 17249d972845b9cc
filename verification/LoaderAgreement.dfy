/** The cancellation callback decides whether loading ends, not how: two loads of the same requests
    that both end leave the same state, but for the number of polls. */
module LoaderAgreement {
  import opened ModuleKeys
  import opened LoaderSpec
  import opened LoaderSession
  import opened LoaderTheorems

  predicate SameButPolls(a: Loader, b: Loader) { b == a.(polls := b.polls) }

  ghost predicate Agree<T>(a: Outcome<T>, b: Outcome<T>) {
    a.Done? && b.Done? ==> a.value == b.value && SameButPolls(a.at, b.at)
  }

  lemma LoadAgrees(w: World, universe: set<Key>, a: Loader, b: Loader, path: Path, bytes: Bytes, roots: Roots)
    requires Bounded(w, universe) && w.keyOf(path) in universe && SameButPolls(a, b)
    ensures Agree(Load(w, universe, a, path, bytes, roots), Load(w, universe, b, path, bytes, roots))
    decreases |Unloaded(w, universe, a, roots)|, 0
  {
    hide Unloaded, Identify, SourceOf, Extends, Obeys, LoadImports, Bounded;
    var key := Name(w, a, path, roots);
    assert key == Name(w, b, path, roots);
    if key !in a.modules && !w.cancel(a.polls + 1) && !w.cancel(b.polls + 1) {
      var p, q := Begun(w, Polled(Polled(a)), path, bytes, roots), Begun(w, Polled(Polled(b)), path, bytes, roots);
      Beginning(w, universe, a, p, path, roots);
      LoadImportsAgrees(w, universe, p, q, path, StatementsOf(w, path, bytes), roots);
    }
  }

  lemma LoadUseAgrees(w: World, universe: set<Key>, a: Loader, b: Loader, importer: Path, use: Stmt, roots: Roots)
    requires Bounded(w, universe) && use.Use? && SameButPolls(a, b)
    ensures Agree(LoadUse(w, universe, a, importer, use, roots), LoadUse(w, universe, b, importer, use, roots))
    decreases |Unloaded(w, universe, a, roots)|, 1
  {
    hide Identify, Extends, Obeys, Load, Unloaded;
    var found := w.resolve(importer, use.path, roots);
    if found.Found? && Name(w, a, found.path, roots) !in a.stack {
      var p, q := Renamed(w, a, found.path, roots), Renamed(w, b, found.path, roots);
      NamingGrows(w, universe, a, found.path, roots);
      LoadAgrees(w, universe, p, q, found.path, w.read(found.path), roots);
    }
  }

  lemma NamingGrows(w: World, universe: set<Key>, ld: Loader, path: Path, roots: Roots)
    ensures |Unloaded(w, universe, Renamed(w, ld, path, roots), roots)| <= |Unloaded(w, universe, ld, roots)|
  {
    FewerUnloaded(w, universe, ld, Renamed(w, ld, path, roots), roots);
  }

  lemma LoadImportsAgrees(w: World, universe: set<Key>, a: Loader, b: Loader, importer: Path, statements: seq<Stmt>,
                          roots: Roots)
    requires Bounded(w, universe) && SameButPolls(a, b)
    ensures Agree(LoadImports(w, universe, a, importer, statements, roots),
                  LoadImports(w, universe, b, importer, statements, roots))
    decreases |Unloaded(w, universe, a, roots)|, 2 + |statements|
  {
    if statements != [] && !w.cancel(a.polls) && !w.cancel(b.polls) {
      var p, q := Polled(a), Polled(b);
      FewerUnloaded(w, universe, a, p, roots);
      if statements[0].Other? {
        LoadImportsAgrees(w, universe, p, q, importer, statements[1..], roots);
      } else {
        LoadUseAgrees(w, universe, p, q, importer, statements[0], roots);
        var first, second := LoadUse(w, universe, p, importer, statements[0], roots),
                             LoadUse(w, universe, q, importer, statements[0], roots);
        if first.Done? && second.Done? {
          FewerUnloaded(w, universe, a, first.at, roots);
          LoadImportsAgrees(w, universe, first.at, second.at, importer, statements[1..], roots);
        }
      }
    }
  }

  lemma ServeOneAgrees(w: World, universe: set<Key>, a: Loader, b: Loader, request: Request)
    requires Bounded(w, universe) && InUniverse(w, universe, request) && SameButPolls(a, b)
    ensures Agree(ServeOne(w, universe, a, request), ServeOne(w, universe, b, request))
  {
    hide Load, LoadImports, Bounded;
    match request
    case Entry(importer, statements, roots) => LoadImportsAgrees(w, universe, a, b, importer, statements, roots);
    case File(path, bytes, roots) => LoadAgrees(w, universe, a, b, path, bytes, roots);
  }

  lemma {:induction false} ServeAgrees(w: World, universe: set<Key>, a: Loader, b: Loader, requests: seq<Request>)
    requires Bounded(w, universe) && (forall q :: q in requests ==> InUniverse(w, universe, q)) && SameButPolls(a, b)
    ensures Agree(Serve(w, universe, a, requests), Serve(w, universe, b, requests))
    decreases |requests|
  {
    if requests != [] {
      hide ServeOne, Bounded, InUniverse;
      ServeOneAgrees(w, universe, a, b, requests[0]);
      var first, second := ServeOne(w, universe, a, requests[0]), ServeOne(w, universe, b, requests[0]);
      if first.Done? && second.Done? {
        ServeAgrees(w, universe, first.at, second.at, requests[1..]);
      }
    }
  }

  /** Requests have one outcome, up to the number of polls. */
  lemma OutcomesAgree(w: World, universe: set<Key>, sources: seq<Path>, requests: seq<Request>,
                      a: Loader, answers: seq<Answer>, b: Loader, answers': seq<Answer>)
    requires Outcomes(w, universe, sources, requests, a, answers)
    requires Outcomes(w, universe, sources, requests, b, answers')
    ensures answers == answers' && SameButPolls(a, b)
  {
    hide Serve, Bounded;
    var p :| Serve(w, universe, Empty(sources, p), requests) == Done(a, answers);
    var q :| Serve(w, universe, Empty(sources, q), requests) == Done(b, answers');
    ServeAgrees(w, universe, Empty(sources, p), Empty(sources, q), requests);
  }
}
