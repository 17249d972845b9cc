/** Counting nodes of a graph whose shared bodies must count once.

    A body behind a shared pointer is written out wherever it is referred to, with its address; two
    references with one address have one body. */
module SharedTerms {

  datatype Term =
    | Node(own: nat, parts: seq<Term>)
    | Shared(addr: nat, body: seq<Term>)

  datatype Tally = Tally(count: nat, seen: set<nat>)

  /** The walk: nodes add what they own; a body is entered only the first time it is met. */
  function Walk(t: Term, tally: Tally): Tally {
    match t
    case Node(own, parts) => WalkAll(parts, Tally(tally.count + own, tally.seen))
    case Shared(addr, body) =>
      if addr in tally.seen then tally else WalkAll(body, Tally(tally.count, tally.seen + {addr}))
  }

  function WalkAll(ts: seq<Term>, tally: Tally): Tally {
    if ts == [] then tally else WalkAll(ts[1..], Walk(ts[0], tally))
  }

  // ----- What the count should be -----

  /** The nodes some terms own outside of shared bodies. */
  function Owned(ts: seq<Term>): nat {
    if ts == [] then 0
    else (match ts[0] case Node(own, parts) => own + Owned(parts) case Shared(_, _) => 0) + Owned(ts[1..])
  }

  /** The shared bodies that can be reached from some terms. */
  function Addresses(ts: seq<Term>): set<nat> {
    if ts == [] then {}
    else
      (match ts[0] case Node(_, parts) => Addresses(parts) case Shared(addr, body) => {addr} + Addresses(body))
      + Addresses(ts[1..])
  }

  type Bodies = map<nat, seq<Term>>

  /** Every reference to an address comes with the body that is there. */
  predicate Coherent(bodies: Bodies, ts: seq<Term>) {
    ts != [] ==>
    && (match ts[0]
        case Node(_, parts) => Coherent(bodies, parts)
        case Shared(addr, body) => addr in bodies && bodies[addr] == body && Coherent(bodies, body))
    && Coherent(bodies, ts[1..])
  }

  /** The nodes the bodies at some addresses own, together. */
  ghost function OwnedBy(bodies: Bodies, addrs: set<nat>): nat
    requires addrs <= bodies.Keys
  {
    if addrs == {} then 0
    else
      var a :| a in addrs;
      Owned(bodies[a]) + OwnedBy(bodies, addrs - {a})
  }

  lemma {:induction false} OwnedByOneMore(bodies: Bodies, addrs: set<nat>, a: nat)
    requires addrs <= bodies.Keys && a in addrs
    ensures OwnedBy(bodies, addrs) == Owned(bodies[a]) + OwnedBy(bodies, addrs - {a})
  {
    var b :| b in addrs && OwnedBy(bodies, addrs) == Owned(bodies[b]) + OwnedBy(bodies, addrs - {b});
    if a != b {
      OwnedByOneMore(bodies, addrs - {b}, a);
      OwnedByOneMore(bodies, addrs - {a}, b);
      assert addrs - {a} - {b} == addrs - {b} - {a};
    }
  }

  lemma {:induction false} OwnedByBoth(bodies: Bodies, p: set<nat>, q: set<nat>)
    requires p <= bodies.Keys && q <= bodies.Keys && p !! q
    ensures OwnedBy(bodies, p + q) == OwnedBy(bodies, p) + OwnedBy(bodies, q)
  {
    if p == {} {
      assert p + q == q;
    } else {
      var a :| a in p;
      OwnedByOneMore(bodies, p, a);
      OwnedByOneMore(bodies, p + q, a);
      assert p + q - {a} == (p - {a}) + q;
      OwnedByBoth(bodies, p - {a}, q);
    }
  }

  // ----- Bodies lie inside what refers to them -----

  function Size(ts: seq<Term>): nat {
    if ts == [] then 0
    else 1 + (match ts[0] case Node(_, parts) => Size(parts) case Shared(_, body) => Size(body)) + Size(ts[1..])
  }

  lemma {:induction false} BodiesAreInside(bodies: Bodies, ts: seq<Term>, a: nat)
    requires Coherent(bodies, ts) && a in Addresses(ts)
    ensures a in bodies && Size(bodies[a]) < Size(ts) && Coherent(bodies, bodies[a])
    ensures Addresses(bodies[a]) <= Addresses(ts)
  {
    var inner := match ts[0] case Node(_, parts) => parts case Shared(_, body) => body;
    if a in Addresses(ts[1..]) {
      BodiesAreInside(bodies, ts[1..], a);
    } else if a in Addresses(inner) {
      BodiesAreInside(bodies, inner, a);
    }
  }

  lemma AddressesHaveBodies(bodies: Bodies, ts: seq<Term>)
    requires Coherent(bodies, ts)
    ensures Addresses(ts) <= bodies.Keys
  {
  }

  /** What was seen of these terms was seen completely. */
  ghost predicate SeenWhole(bodies: Bodies, ts: seq<Term>, seen: set<nat>)
    requires Coherent(bodies, ts)
  {
    AddressesHaveBodies(bodies, ts);
    forall a :: a in Addresses(ts) && a in seen ==> Addresses(bodies[a]) <= seen
  }

  ghost predicate Counted(bodies: Bodies, ts: seq<Term>, tally: Tally, tally': Tally)
    requires Coherent(bodies, ts)
  {
    AddressesHaveBodies(bodies, ts);
    && tally'.seen == tally.seen + Addresses(ts)
    && tally'.count == tally.count + Owned(ts) + OwnedBy(bodies, Addresses(ts) - tally.seen)
  }

  lemma {:induction false} WalkCounts(bodies: Bodies, ts: seq<Term>, tally: Tally)
    requires Coherent(bodies, ts) && SeenWhole(bodies, ts, tally.seen)
    ensures Counted(bodies, ts, tally, WalkAll(ts, tally))
    decreases Size(ts), 1
  {
    if ts == [] {
      assert {} - tally.seen == {};
    } else {
      hide OwnedBy;
      var first, rest := Walk(ts[0], tally), ts[1..];
      FirstCounts(bodies, ts, tally);
      AddressesHaveBodies(bodies, ts);
      FirstOwned(ts);
      forall a | a in Addresses(rest) && a in first.seen ensures Addresses(bodies[a]) <= first.seen {
        if a !in tally.seen {
          BodiesAreInside(bodies, [ts[0]], a);
        }
      }
      WalkCounts(bodies, rest, first);
      var p, q := Addresses([ts[0]]) - tally.seen, Addresses(rest) - first.seen;
      OwnedByBoth(bodies, p, q);
      assert Addresses(ts) - tally.seen == p + q;
    }
  }

  lemma Single(t: Term)
    ensures t.Node? ==> Owned([t]) == t.own + Owned(t.parts) && Addresses([t]) == Addresses(t.parts)
    ensures t.Shared? ==> Owned([t]) == 0 && Addresses([t]) == {t.addr} + Addresses(t.body)
  {
  }

  lemma FirstOwned(ts: seq<Term>)
    requires ts != []
    ensures Owned(ts) == Owned([ts[0]]) + Owned(ts[1..])
    ensures Addresses(ts) == Addresses([ts[0]]) + Addresses(ts[1..])
  {
  }

  lemma {:induction false} FirstCounts(bodies: Bodies, ts: seq<Term>, tally: Tally)
    requires ts != [] && Coherent(bodies, ts) && SeenWhole(bodies, ts, tally.seen)
    ensures Coherent(bodies, [ts[0]])
    ensures Counted(bodies, [ts[0]], tally, Walk(ts[0], tally))
    decreases Size(ts), 0
  {
    hide OwnedBy;
    AddressesHaveBodies(bodies, ts);
    Single(ts[0]);
    assert [ts[0]][1..] == [];
    match ts[0]
    case Node(own, parts) =>
      WalkCounts(bodies, parts, Tally(tally.count + own, tally.seen));
    case Shared(addr, body) =>
      var now := tally.seen + {addr};
      if addr in tally.seen {
        assert Addresses([ts[0]]) - tally.seen == {};
        NothingOwned(bodies);
      } else {
        BodyIsElsewhere(bodies, body, addr);
        WalkCounts(bodies, body, Tally(tally.count, now));
        OwnedByOneMore(bodies, Addresses([ts[0]]) - tally.seen, addr);
        assert Addresses([ts[0]]) - tally.seen - {addr} == Addresses(body) - now;
      }
  }

  lemma NothingOwned(bodies: Bodies)
    ensures OwnedBy(bodies, {}) == 0
  {
  }

  /** No body refers to itself. */
  lemma BodyIsElsewhere(bodies: Bodies, body: seq<Term>, addr: nat)
    requires addr in bodies && bodies[addr] == body && Coherent(bodies, body)
    ensures addr !in Addresses(body)
  {
    if addr in Addresses(body) {
      BodiesAreInside(bodies, body, addr);
    }
  }

  /** Counting from nothing gives the nodes the roots own, and once each the nodes owned by every
      shared body that can be reached from them. */
  lemma CountIsOwnedAndShared(bodies: Bodies, roots: seq<Term>)
    requires Coherent(bodies, roots)
    ensures Addresses(roots) <= bodies.Keys
    ensures WalkAll(roots, Tally(0, {})) == Tally(Owned(roots) + OwnedBy(bodies, Addresses(roots)), Addresses(roots))
  {
    AddressesHaveBodies(bodies, roots);
    WalkCounts(bodies, roots, Tally(0, {}));
    assert Addresses(roots) - {} == Addresses(roots);
  }

  // ----- Order and repetition -----

  lemma {:induction false} Joined(a: seq<Term>, b: seq<Term>)
    ensures Owned(a + b) == Owned(a) + Owned(b) && Addresses(a + b) == Addresses(a) + Addresses(b)
  {
    if a == [] {
      assert a + b == b;
    } else {
      assert (a + b)[1..] == a[1..] + b;
      Joined(a[1..], b);
    }
  }

  lemma WithoutOne(a: seq<Term>, b: seq<Term>, rest: seq<Term>, p: seq<Term>, q: seq<Term>, x: Term)
    requires a == [x] + rest && b == p + [x] + q && multiset(a) == multiset(b)
    ensures multiset(rest) == multiset(p + q)
  {
    assert multiset(rest) == multiset(a) - multiset{x};
    assert multiset(p + q) == multiset(b) - multiset{x};
  }

  lemma {:induction false} Permuted(a: seq<Term>, b: seq<Term>)
    requires multiset(a) == multiset(b)
    ensures Owned(a) == Owned(b) && Addresses(a) == Addresses(b)
  {
    hide Owned, Addresses;
    if a == [] {
      assert |multiset(b)| == 0;
    } else {
      var x, rest := a[0], a[1..];
      assert a == [x] + rest;
      assert x in multiset(a);
      var i :| 0 <= i < |b| && b[i] == x;
      var p, q := b[..i], b[i + 1..];
      WithoutOne(a, b, rest, p, q, x);
      Permuted(rest, p + q);
      Joined(p, q);
      Joined(p, [x] + q);
      Joined([x], q);
      Joined([x], rest);
      assert b == p + ([x] + q);
    }
  }

  /** The tally does not depend on the order of the roots. */
  lemma OrderIsIrrelevant(bodies: Bodies, a: seq<Term>, b: seq<Term>)
    requires Coherent(bodies, a) && Coherent(bodies, b) && multiset(a) == multiset(b)
    ensures WalkAll(a, Tally(0, {})) == WalkAll(b, Tally(0, {}))
  {
    CountIsOwnedAndShared(bodies, a);
    CountIsOwnedAndShared(bodies, b);
    Permuted(a, b);
  }

  /** A further reference to a body that was met adds nothing. */
  lemma RepetitionAddsNothing(bodies: Bodies, roots: seq<Term>, addr: nat, body: seq<Term>)
    requires Coherent(bodies, roots) && Coherent(bodies, roots + [Shared(addr, body)]) && addr in Addresses(roots)
    ensures WalkAll(roots + [Shared(addr, body)], Tally(0, {})) == WalkAll(roots, Tally(0, {}))
  {
    var more := roots + [Shared(addr, body)];
    CountIsOwnedAndShared(bodies, roots);
    CountIsOwnedAndShared(bodies, more);
    Joined(roots, [Shared(addr, body)]);
    CoherentTail(bodies, roots, Shared(addr, body));
    Single(Shared(addr, body));
    BodiesAreInside(bodies, roots, addr);
    assert Addresses(more) == Addresses(roots);
  }

  lemma {:induction false} CoherentTail(bodies: Bodies, roots: seq<Term>, t: Term)
    requires Coherent(bodies, roots + [t])
    ensures Coherent(bodies, [t])
  {
    if roots == [] {
      assert roots + [t] == [t];
    } else {
      assert (roots + [t])[1..] == roots[1..] + [t];
      CoherentTail(bodies, roots[1..], t);
    }
  }
}
