/** A sequence of requests to one loader - entry files whose imports are loaded, and single files -
    and what holds between requests. */
module LoaderSession {
  import opened Options
  import opened ModuleKeys
  import opened LoaderSpec
  import opened LoaderGraph
  import opened LoaderRecords

  datatype Request =
    | Entry(importer: Path, statements: seq<Stmt>, roots: Roots)
    | File(path: Path, bytes: Bytes, roots: Roots)

  /** The files that requests hand over themselves. */
  function GivenBy(requests: seq<Request>): (given: Given)
    ensures forall q :: q in requests && q.File? ==> (q.path, q.bytes) in given
  {
    if requests == [] then {}
    else (if requests[0].File? then {(requests[0].path, requests[0].bytes)} else {}) + GivenBy(requests[1..])
  }

  datatype Answer = EntryImports(imports: seq<Import>) | FileKey(key: Key)

  ghost predicate InUniverse(w: World, universe: set<Key>, request: Request) {
    request.File? ==> w.keyOf(request.path) in universe
  }

  ghost function ServeOne(w: World, universe: set<Key>, ld: Loader, request: Request): Outcome<Answer>
    requires Bounded(w, universe) && InUniverse(w, universe, request)
  {
    match request
    case Entry(importer, statements, roots) =>
      (match LoadImports(w, universe, ld, importer, statements, roots)
       case Cancelled(at) => Cancelled(at)
       case Done(at, imports) => Done(at, EntryImports(imports)))
    case File(path, bytes, roots) =>
      match Load(w, universe, ld, path, bytes, roots)
      case Cancelled(at) => Cancelled(at)
      case Done(at, key) => Done(at, FileKey(key))
  }

  ghost function Serve(w: World, universe: set<Key>, ld: Loader, requests: seq<Request>): Outcome<seq<Answer>>
    requires Bounded(w, universe) && forall q :: q in requests ==> InUniverse(w, universe, q)
    decreases |requests|
  {
    if requests == [] then Done(ld, [])
    else
      match ServeOne(w, universe, ld, requests[0])
      case Cancelled(at) => Cancelled(at)
      case Done(at, answer) =>
        match Serve(w, universe, at, requests[1..])
        case Cancelled(at') => Cancelled(at')
        case Done(at', rest) => Done(at', [answer] + rest)
  }

  // ----- The invariant between requests -----

  ghost predicate NamedBy(a: Answer, t: Key) {
    match a
    case EntryImports(imports) => exists i :: i in imports && i.target == Some(t)
    case FileKey(key) => key == t
  }

  ghost predicate AskedFor(mods: Modules, answers: seq<Answer>, k: Key) {
    exists a, t :: a in answers && NamedBy(a, t) && Reach(mods, t, k)
  }

  ghost predicate AllAskedFor(mods: Modules, answers: seq<Answer>) {
    forall k :: k in mods ==> AskedFor(mods, answers, k)
  }

  ghost predicate CyclesClosed(mods: Modules) {
    forall m, i :: m in mods && i in mods[m].imports && IsCycle(i) ==> Reach(mods, i.target.value, m)
  }

  /** An answer is what the request's file says, and what it names has finished loading. */
  ghost predicate Answered(w: World, ld: Loader, request: Request, answer: Answer) {
    match request
    case Entry(importer, statements, roots) =>
      && answer.EntryImports?
      && Recorded(w, ld.ids, importer, roots, Uses(statements), answer.imports)
      && AllSettled(ld.modules, ld.arena, answer.imports)
      && forall i :: i in answer.imports ==> !IsCycle(i)
    case File(path, _, roots) =>
      && answer.FileKey? && answer.key in ld.modules
      && Known(w.scoped, ld.ids, w.keyOf(path), roots) == Some(answer.key)
  }

  ghost predicate AllAnswered(w: World, ld: Loader, requests: seq<Request>, answers: seq<Answer>) {
    |answers| == |requests| && forall j :: 0 <= j < |requests| ==> Answered(w, ld, requests[j], answers[j])
  }

  ghost predicate Quiet(w: World, given: Given, ld: Loader) {
    LoaderInv(ld) && AllRecorded(w, given, ld) && ld.stack == [] && CyclesClosed(ld.modules)
  }

  /** `base` counts the sources that were there before the loader. */
  ghost predicate Session(w: World, given: Given, base: nat, ld: Loader, requests: seq<Request>, answers: seq<Answer>) {
    && Quiet(w, given, ld) && |ld.sources| == base + |ld.modules|
    && AllAnswered(w, ld, requests, answers) && AllAskedFor(ld.modules, answers)
  }

  lemma AnsweredGrows(w: World, ld: Loader, ld': Loader, request: Request, answer: Answer)
    requires Answered(w, ld, request, answer) && Progress(ld, ld') && IdsGrow(ld.ids, ld'.ids)
    ensures Answered(w, ld', request, answer)
  {
  }

  lemma CyclesClose(ld: Loader, ld': Loader)
    requires CyclesClosed(ld.modules) && Progress(ld, ld') && CyclesAnchored(ld, ld') && ld.stack == []
    ensures CyclesClosed(ld'.modules)
  {
  }

  ghost predicate NewNamedBy(ld: Loader, ld': Loader, answer: Answer) {
    forall k :: k in ld'.modules && k !in ld.modules ==> exists t :: NamedBy(answer, t) && Reach(ld'.modules, t, k)
  }

  lemma AskedForGrows(ld: Loader, ld': Loader, answers: seq<Answer>, answer: Answer)
    requires Progress(ld, ld') && AllAskedFor(ld.modules, answers) && NewNamedBy(ld, ld', answer)
    ensures AllAskedFor(ld'.modules, answers + [answer])
  {
  }

  lemma ServeEntryKeeps(w: World, given: Given, universe: set<Key>, ld: Loader, request: Request)
    requires Bounded(w, universe) && Quiet(w, given, ld) && request.Entry?
    requires ServeOne(w, universe, ld, request).Done?
    ensures var r := ServeOne(w, universe, ld, request);
            && Progress(ld, r.at) && IdsGrow(ld.ids, r.at.ids) && Quiet(w, given, r.at)
            && Answered(w, r.at, request, r.value) && NewNamedBy(ld, r.at, r.value)
  {
    hide AllRecorded, Recorded, Reach, AllSettled, LoaderInv, IdsGrow, CyclesClosed, CyclesAnchored, Bounded;
    var r := ServeOne(w, universe, ld, request);
    LoadImportsKeeps(w, universe, ld, request.importer, request.statements, request.roots);
    LoadImportsRecords(w, given, universe, ld, request.importer, request.statements, request.roots);
    CyclesClose(ld, r.at);
    forall k | k in r.at.modules && k !in ld.modules
      ensures exists t :: NamedBy(r.value, t) && Reach(r.at.modules, t, k)
    {
      assert FromImports(r.at.modules, r.value.imports, k);
      var i :| i in r.value.imports && i.target.Some? && Reach(r.at.modules, i.target.value, k);
      assert NamedBy(r.value, i.target.value);
    }
  }

  lemma ServeFileKeeps(w: World, given: Given, universe: set<Key>, ld: Loader, path: Path, bytes: Bytes, roots: Roots)
    requires Bounded(w, universe) && w.keyOf(path) in universe && Quiet(w, given, ld) && Supplied(w, given, path, bytes)
    ensures var request := File(path, bytes, roots);
            var r := ServeOne(w, universe, ld, request);
            r.Done? ==>
              && Progress(ld, r.at) && IdsGrow(ld.ids, r.at.ids) && Quiet(w, given, r.at)
              && Answered(w, r.at, request, r.value) && NewNamedBy(ld, r.at, r.value)
  {
    hide AllRecorded, Reach, LoaderInv, IdsGrow, CyclesClosed, CyclesAnchored, Bounded;
    var r := ServeOne(w, universe, ld, File(path, bytes, roots));
    if r.Done? {
      LoadKeeps(w, universe, ld, path, bytes, roots);
      LoadRecords(w, given, universe, ld, path, bytes, roots);
      CyclesClose(ld, r.at);
      assert NamedBy(r.value, r.value.key);
    }
  }

  lemma {:induction false} ServeKeeps(w: World, given: Given, universe: set<Key>, base: nat, ld: Loader,
                                      before: seq<Request>, answers: seq<Answer>, requests: seq<Request>)
    requires Bounded(w, universe) && (forall q :: q in requests ==> InUniverse(w, universe, q))
    requires Session(w, given, base, ld, before, answers)
    requires Serve(w, universe, ld, requests).Done?
    requires forall q :: q in requests && q.File? ==> (q.path, q.bytes) in given
    ensures var r := Serve(w, universe, ld, requests);
            Session(w, given, base, r.at, before + requests, answers + r.value)
    decreases |requests|
  {
    hide Session, Bounded, InUniverse, ServeOne;
    if requests == [] {
      assert before + requests == before && answers + [] == answers;
    } else {
      var one := ServeOne(w, universe, ld, requests[0]);
      ServeOneKeeps(w, given, universe, base, ld, before, answers, requests[0]);
      ServeKeeps(w, given, universe, base, one.at, before + [requests[0]], answers + [one.value], requests[1..]);
      assert before + [requests[0]] + requests[1..] == before + requests;
      Reassociate(answers, one.value, Serve(w, universe, one.at, requests[1..]).value);
    }
  }

  lemma Reassociate(before: seq<Answer>, one: Answer, rest: seq<Answer>)
    ensures before + [one] + rest == before + ([one] + rest)
  {
  }

  lemma ServeOneKeeps(w: World, given: Given, universe: set<Key>, base: nat, ld: Loader, before: seq<Request>,
                      answers: seq<Answer>, request: Request)
    requires Bounded(w, universe) && InUniverse(w, universe, request) && Session(w, given, base, ld, before, answers)
    requires ServeOne(w, universe, ld, request).Done?
    requires request.File? ==> (request.path, request.bytes) in given
    ensures var r := ServeOne(w, universe, ld, request);
            Session(w, given, base, r.at, before + [request], answers + [r.value])
  {
    hide Quiet, Answered, Bounded, IdsGrow, Reach, NewNamedBy, AllAskedFor;
    var r := ServeOne(w, universe, ld, request);
    if request.Entry? {
      ServeEntryKeeps(w, given, universe, ld, request);
    } else {
      assert request == File(request.path, request.bytes, request.roots);
      ServeFileKeeps(w, given, universe, ld, request.path, request.bytes, request.roots);
    }
    AskedForGrows(ld, r.at, answers, r.value);
    forall j | 0 <= j <= |before| ensures Answered(w, r.at, (before + [request])[j], (answers + [r.value])[j]) {
      if j < |before| {
        AnsweredGrows(w, ld, r.at, before[j], answers[j]);
      }
    }
  }
}
