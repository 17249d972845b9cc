/** How a loader names modules: the physical key of a file, or, when several entries with
    different module roots share one loader, a key per file and list of roots. */
module ModuleKeys {
  import opened Decimals
  import opened Options

  type Path = string

  type Roots = seq<Path>

  /** A physical key is a canonical path; a module key is one, possibly with a context suffix. */
  type Key = string

  datatype Ids = Ids(primary: map<Key, Roots>, contextual: map<(Key, Roots), Key>, contextIds: map<Roots, nat>,
                     next: nat)

  const NO_IDS := Ids(map[], map[], map[], 1)

  function ContextKey(phys: Key, id: nat): (k: Key)
    ensures '\0' in k
  {
    var k := phys + "\0" + Decimal(id);
    assert k[|phys|] == '\0';
    k
  }

  /** `identity_key`: the key, and what the loader remembers afterwards. */
  function Identify(scoped: bool, ids: Ids, phys: Key, roots: Roots): (Ids, Key) {
    if !scoped then (ids, phys)
    else if (phys, roots) in ids.contextual then (ids, ids.contextual[(phys, roots)])
    else if phys in ids.primary then
      var known := roots in ids.contextIds;
      var id := if known then ids.contextIds[roots] else ids.next;
      var key := ContextKey(phys, id);
      (Ids(ids.primary, ids.contextual[(phys, roots) := key], ids.contextIds[roots := id],
           if known then ids.next else ids.next + 1),
       key)
    else
      (ids.(primary := ids.primary[phys := roots], contextual := ids.contextual[(phys, roots) := phys]), phys)
  }

  /** The key a file has already been given for these roots. */
  function Known(scoped: bool, ids: Ids, phys: Key, roots: Roots): Option<Key> {
    if !scoped then Some(phys)
    else if (phys, roots) in ids.contextual then Some(ids.contextual[(phys, roots)])
    else None
  }

  ghost predicate IdsValid(ids: Ids) {
    && (forall r :: r in ids.contextIds ==> ids.contextIds[r] < ids.next)
    && (forall r, q :: r in ids.contextIds && q in ids.contextIds && ids.contextIds[r] == ids.contextIds[q] ==> r == q)
    && (forall p, r :: (p, r) in ids.contextual ==>
          && p in ids.primary
          && (if ids.primary[p] == r then ids.contextual[(p, r)] == p
              else r in ids.contextIds && ids.contextual[(p, r)] == ContextKey(p, ids.contextIds[r])))
    && (forall p :: p in ids.primary ==> (p, ids.primary[p]) in ids.contextual)
  }

  ghost predicate IdsGrow(ids: Ids, ids': Ids) {
    forall k :: k in ids.contextual ==> k in ids'.contextual && ids'.contextual[k] == ids.contextual[k]
  }

  /** Naming keeps the tables in order, forgets no earlier name, and the debug assertion holds:
      a file that needs a context suffix has other roots than the ones it was first loaded with. */
  lemma IdentifyKeeps(scoped: bool, ids: Ids, phys: Key, roots: Roots)
    requires IdsValid(ids)
    ensures var (ids', key) := Identify(scoped, ids, phys, roots);
            && IdsValid(ids') && IdsGrow(ids, ids')
            && Known(scoped, ids', phys, roots) == Some(key)
            && Identify(scoped, ids', phys, roots) == (ids', key)
    ensures (phys, roots) !in ids.contextual && phys in ids.primary ==> ids.primary[phys] != roots
  {
  }

  predicate NoNul(p: Key) { '\0' !in p }

  /** The first NUL tells where the physical key ends. */
  lemma SplitAtNul(p: Key, q: Key, a: string, b: string)
    requires NoNul(p) && NoNul(q) && p + "\0" + a == q + "\0" + b
    ensures p == q && a == b
  {
    var x, y := p + "\0" + a, q + "\0" + b;
    assert x[|p|] == '\0' && y[|q|] == '\0';
    assert forall i :: 0 <= i < |p| ==> p[i] != '\0' && x[i] == p[i];
    assert forall i :: 0 <= i < |q| ==> q[i] != '\0' && y[i] == q[i];
    assert |p| == |q|;
    assert p == x[..|p|] && q == y[..|q|];
    assert a == x[|p| + 1..] && b == y[|q| + 1..];
  }

  /** Two names agree only if they are names of the same file under the same roots. */
  lemma NamesDiffer(ids: Ids, p: Key, r: Roots, q: Key, s: Roots)
    requires IdsValid(ids) && NoNul(p) && NoNul(q)
    requires (p, r) in ids.contextual && (q, s) in ids.contextual
    requires ids.contextual[(p, r)] == ids.contextual[(q, s)]
    ensures p == q && r == s
  {
    var pPlain, qPlain := ids.primary[p] == r, ids.primary[q] == s;
    if !pPlain && !qPlain {
      SplitAtNul(p, q, Decimal(ids.contextIds[r]), Decimal(ids.contextIds[s]));
      DecimalInjective(ids.contextIds[r], ids.contextIds[s]);
    }
  }

  // ----- Over a history of calls -----

  function Remember(scoped: bool, calls: seq<(Key, Roots)>): Ids {
    if calls == [] then NO_IDS
    else Identify(scoped, Remember(scoped, calls[..|calls| - 1]), calls[|calls| - 1].0, calls[|calls| - 1].1).0
  }

  /** What the `i`-th call of a history returns. */
  function Named(scoped: bool, calls: seq<(Key, Roots)>, i: nat): Key
    requires i < |calls|
  {
    Identify(scoped, Remember(scoped, calls[..i]), calls[i].0, calls[i].1).1
  }

  lemma {:induction false} HistoryIsRemembered(calls: seq<(Key, Roots)>, i: nat)
    requires i < |calls|
    ensures IdsValid(Remember(true, calls))
    ensures Known(true, Remember(true, calls), calls[i].0, calls[i].1) == Some(Named(true, calls, i))
  {
    var front, last := calls[..|calls| - 1], calls[|calls| - 1];
    HistoryValid(front);
    var ids := Remember(true, front);
    IdentifyKeeps(true, ids, last.0, last.1);
    if i < |front| {
      HistoryIsRemembered(front, i);
      assert front[..i] == calls[..i];
    } else {
      assert front == calls[..i];
    }
  }

  lemma {:induction false} HistoryValid(calls: seq<(Key, Roots)>)
    ensures IdsValid(Remember(true, calls))
  {
    if calls != [] {
      HistoryValid(calls[..|calls| - 1]);
      IdentifyKeeps(true, Remember(true, calls[..|calls| - 1]), calls[|calls| - 1].0, calls[|calls| - 1].1);
    }
  }

  /** Over any history of a shared workspace, two calls get the same key exactly when they ask
      for the same file under the same roots. */
  lemma KeysNameFilesAndRoots(calls: seq<(Key, Roots)>, i: nat, j: nat)
    requires i < |calls| && j < |calls| && NoNul(calls[i].0) && NoNul(calls[j].0)
    ensures Named(true, calls, i) == Named(true, calls, j) <==> calls[i] == calls[j]
  {
    HistoryIsRemembered(calls, i);
    HistoryIsRemembered(calls, j);
    if Named(true, calls, i) == Named(true, calls, j) {
      NamesDiffer(Remember(true, calls), calls[i].0, calls[i].1, calls[j].0, calls[j].1);
    }
  }

  /** The premise is needed: a physical key with a NUL in it can be another file's context key. */
  lemma NulKeysCollide(r: Roots, s: Roots)
    requires r != s
    ensures var calls := [("a", r), ("a", s), ("a\01", r)];
            Named(true, calls, 1) == Named(true, calls, 2) && calls[1] != calls[2]
  {
    var calls := [("a", r), ("a", s), ("a\01", r)];
    var one := Identify(true, NO_IDS, "a", r).0;
    var two := Identify(true, one, "a", s).0;
    assert calls[..1] == [("a", r)] && calls[..2] == [("a", r), ("a", s)];
    assert [("a", r), ("a", s)][..1] == [("a", r)] && [("a", r)][..0] == [];
    assert Remember(true, []) == NO_IDS;
    assert Remember(true, [("a", r)]) == one;
    assert Remember(true, [("a", r), ("a", s)]) == two;
    assert Decimal(1) == "1";
    assert ContextKey("a", 1) == "a\01";
    assert Named(true, calls, 1) == "a\01";
    assert "a\01" !in two.primary;
  }
}
