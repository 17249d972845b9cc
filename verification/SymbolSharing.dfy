/** Exactly when interning is right: when no owner is used by two threads at once.

    `Name::intern` looks a text up under the interner's lock and later, with that lock long
    dropped, accepts the symbol it found because the active owner's set contains it. If a
    sibling thread enrolled the same slot for another text in between, the answer is wrong. */
module SymbolSharing {
  import opened Options
  import opened SymbolTable
  import opened SymbolSystem
  import opened SymbolInvariant
  import opened SymbolTheorems

  /** Every symbol that was returned to an owner still open spells what was asked for. */
  ghost predicate AllIssuedRight(pre: seq<Text>, st: State) {
    forall o, s, x :: OpenOwner(st, o) && (s, x) in st.owners[o].issued ==> TextOf(pre, st.table, s) == Some(x)
  }

  /** No run in which only owners in `shared` are used by several threads has a wrong symbol among those
      returned. */
  ghost predicate NamesStayRight(pre: seq<Text>, shared: iset<OwnerId>)
    requires Distinct(pre)
  {
    forall run :: Possible(pre, Initial(pre), run) && RunKeepsTo(pre, shared, Initial(pre), run) ==>
                    AllIssuedRight(pre, After(pre, Initial(pre), run))
  }

  /** After no such run does an interning return a name that does not spell what was asked for. */
  ghost predicate InterningSafe(pre: seq<Text>, shared: iset<OwnerId>)
    requires Distinct(pre)
  {
    forall run, t, a ::
      Possible(pre, Initial(pre), run) && RunKeepsTo(pre, shared, Initial(pre), run)
      && EndsIntern(pre, After(pre, Initial(pre), run), t, a) ==>
        AnswersRight(pre, After(pre, Initial(pre), run), t, a)
  }

  // ----- Building a run step by step -----

  ghost predicate Reaches(pre: seq<Text>, shared: iset<OwnerId>, st: State, st': State) {
    exists run :: Possible(pre, st, run) && RunKeepsTo(pre, shared, st, run) && After(pre, st, run) == st'
  }

  lemma {:induction false} AppendStep(pre: seq<Text>, shared: iset<OwnerId>, st: State, run: seq<Label>, l: Label)
    requires Possible(pre, st, run) && RunKeepsTo(pre, shared, st, run)
    requires Enabled(pre, After(pre, st, run), l.0, l.1)
    requires KeepsTo(shared, Step(pre, After(pre, st, run), l.0, l.1))
    ensures Possible(pre, st, run + [l]) && RunKeepsTo(pre, shared, st, run + [l])
    ensures After(pre, st, run + [l]) == Step(pre, After(pre, st, run), l.0, l.1)
    decreases |run|
  {
    if run == [] {
      assert run + [l] == [l];
      assert [l][1..] == [];
    } else {
      AppendStep(pre, shared, Step(pre, st, run[0].0, run[0].1), run[1..], l);
      assert (run + [l])[0] == run[0] && (run + [l])[1..] == run[1..] + [l];
    }
  }

  lemma ReachStep(pre: seq<Text>, shared: iset<OwnerId>, st: State, mid: State, t: Tid, a: Action)
    requires Reaches(pre, shared, st, mid) && Enabled(pre, mid, t, a) && KeepsTo(shared, Step(pre, mid, t, a))
    ensures Reaches(pre, shared, st, Step(pre, mid, t, a))
  {
    var run :| Possible(pre, st, run) && RunKeepsTo(pre, shared, st, run) && After(pre, st, run) == mid;
    AppendStep(pre, shared, st, run, (t, a));
    assert Possible(pre, st, run + [(t, a)]);
  }

  // ----- The bad run -----

  /** Two threads, of which the second works for `b` and sometimes for `a`. */
  function Two(table: Table, released: nat, owners: map<OwnerId, Owner>, stack1: seq<OwnerId>, pc1: Pc, r1: Result,
               pc2: Pc, r2: Result, clock: nat): State
  {
    State(table, released, owners,
          map[1 := Thread(stack1, pc1, Cache(0, []), r1), 2 := Thread([], pc2, Cache(0, []), r2)], clock)
  }

  function SlotWith(pre: seq<Text>, text: Text, owner: OwnerId): Table
    requires Distinct(pre) && text !in pre
  {
    Table(Preloaded(pre).byText[text := |pre|], [Some(Entry(text, 1, Some(owner)))], [])
  }

  /** A fresh owner enrolls the first dynamic name. */
  lemma FirstEnroll(pre: seq<Text>, text: Text, o: OwnerId)
    requires Distinct(pre) && text !in pre
    ensures Enroll(pre, Preloaded(pre), {}, o, text) == (SlotWith(pre, text, o), {|pre|}, |pre|)
    ensures text !in Preloaded(pre).byText
  {
    var t := Preloaded(pre);
    assert text !in t.byText by { assert MapSpells(pre, t); }
    var (t', s) := Intern(pre, t, text);
    assert s == |pre| && t'.slots == [Some(Entry(text, 0, None))] && t'.free == [];
    assert Retain(pre, t', s, o).slots == [Some(Entry(text, 1, Some(o)))];
    assert {} + {|pre|} == {|pre|};
  }

  /** The same slot, emptied and filled again for another text. */
  lemma RefillEnroll(pre: seq<Text>, x: Text, y: Text, b: OwnerId, a: OwnerId)
    requires Distinct(pre) && x !in pre && y !in pre
    ensures var cleared := Clear(pre, Disown(pre, SlotWith(pre, x, b), |pre|), |pre|);
            Enroll(pre, cleared, {}, a, y) == (SlotWith(pre, y, a), {|pre|}, |pre|)
  {
    var cleared := Clear(pre, Disown(pre, SlotWith(pre, x, b), |pre|), |pre|);
    FirstEnroll(pre, x, b);
    FirstEnroll(pre, y, a);
    assert cleared.byText == Preloaded(pre).byText && cleared.slots == [None] && cleared.free == [0];
    var (t', s) := Intern(pre, cleared, y);
    assert s == |pre| && t'.slots == [Some(Entry(y, 0, None))] && t'.free == [];
    assert Retain(pre, t', s, a).slots == [Some(Entry(y, 1, Some(a)))];
    assert {} + {|pre|} == {|pre|};
  }

  lemma Advance(pre: seq<Text>, shared: iset<OwnerId>, st: State, a: OwnerId, t: Tid, act: Action, st': State)
    requires Distinct(pre) && a in shared && Reaches(pre, shared, Initial(pre), st)
    requires Enabled(pre, st, t, act) && Step(pre, st, t, act) == st'
    requires st'.threads.Keys <= {1, 2} && (1 in st'.threads ==> forall o :: Uses(st'.threads[1], o) ==> o == a)
    ensures Reaches(pre, shared, Initial(pre), st')
  {
    assert KeepsTo(shared, st');
    ReachStep(pre, shared, Initial(pre), st, t, act);
  }

  /** Moving thread 2 (or thread 1) of a pair. */
  lemma Second(table: Table, released: nat, owners: map<OwnerId, Owner>, stack1: seq<OwnerId>, pc1: Pc, r1: Result,
               pc2: Pc, r2: Result, clock: nat, pc: Pc, r: Result)
    ensures var st := Two(table, released, owners, stack1, pc1, r1, pc2, r2, clock);
            && SetThread(st, 2, st.threads[2].(pc := pc, result := r))
               == Two(table, released, owners, stack1, pc1, r1, pc, r, clock)
            && SetThread(st, 1, st.threads[1].(pc := pc, result := r))
               == Two(table, released, owners, stack1, pc, r, pc2, r2, clock)
  {
  }

  lemma SecondAsks(pre: seq<Text>, table: Table, released: nat, owners: map<OwnerId, Owner>, stack1: seq<OwnerId>,
                   pc1: Pc, r2: Result, clock: nat, o: OwnerId, text: Text)
    requires o in owners && owners[o].external > 0 && !owners[o].closing && (pc1.Idle? || pc1.Looked?)
    ensures var st0 := Two(table, released, owners, stack1, pc1, NoResult, Idle, r2, clock);
            var st1 := Two(table, released, owners, stack1, pc1, NoResult, WantOwner(o, text), r2, clock);
            Enabled(pre, st0, 2, StartOwnerIntern(o, text)) && Step(pre, st0, 2, StartOwnerIntern(o, text)) == st1
  {
  }

  lemma SecondLocks(pre: seq<Text>, table: Table, released: nat, owners: map<OwnerId, Owner>, stack1: seq<OwnerId>,
                    pc1: Pc, r2: Result, clock: nat, o: OwnerId, text: Text)
    requires pc1.Idle? || pc1.Looked?
    ensures var st1 := Two(table, released, owners, stack1, pc1, NoResult, WantOwner(o, text), r2, clock);
            var st2 := Two(table, released, owners, stack1, pc1, NoResult, WantTable(o, text), r2, clock);
            Enabled(pre, st1, 2, LockOwner) && Step(pre, st1, 2, LockOwner) == st2
  {
  }

  /** Thread 2 interns `text` on a handle of `o`. */
  lemma SecondEnrolls(pre: seq<Text>, shared: iset<OwnerId>, a: OwnerId, table: Table, released: nat,
                      owners: map<OwnerId, Owner>, stack1: seq<OwnerId>, pc1: Pc, r2: Result, clock: nat,
                      o: OwnerId, text: Text)
    requires Distinct(pre) && a in shared && o in owners && owners[o].external > 0 && !owners[o].closing
    requires stack1 == [] || stack1 == [a]
    requires pc1.Idle? || pc1.Looked?
    requires Reaches(pre, shared, Initial(pre), Two(table, released, owners, stack1, pc1, NoResult, Idle, r2, clock))
    ensures var (table', symbols, s) := Enroll(pre, table, owners[o].symbols, o, text);
            var o' := owners[o].(symbols := symbols, issued := owners[o].issued + {(s, text)});
            Reaches(pre, shared, Initial(pre),
                    Two(table', released, owners[o := o'], stack1, pc1, NoResult, Idle, Named(s, text), clock))
  {
    hide Reaches, Step, Enabled, Enroll;
    var st0 := Two(table, released, owners, stack1, pc1, NoResult, Idle, r2, clock);
    var st1 := Two(table, released, owners, stack1, pc1, NoResult, WantOwner(o, text), r2, clock);
    var st2 := Two(table, released, owners, stack1, pc1, NoResult, WantTable(o, text), r2, clock);
    SecondAsks(pre, table, released, owners, stack1, pc1, r2, clock, o, text);
    Advance(pre, shared, st0, a, 2, StartOwnerIntern(o, text), st1);
    SecondLocks(pre, table, released, owners, stack1, pc1, r2, clock, o, text);
    Advance(pre, shared, st1, a, 2, LockOwner, st2);
    SecondFinishes(pre, shared, a, table, released, owners, stack1, pc1, r2, clock, o, text);
  }

  lemma SecondInternsLocked(pre: seq<Text>, table: Table, released: nat, owners: map<OwnerId, Owner>,
                            stack1: seq<OwnerId>, pc1: Pc, r2: Result, clock: nat, o: OwnerId, text: Text)
    requires o in owners && !pc1.Closing?
    ensures var (table', symbols, s) := Enroll(pre, table, owners[o].symbols, o, text);
            var st := Two(table, released, owners, stack1, pc1, NoResult, WantTable(o, text), r2, clock);
            && Enabled(pre, st, 2, InternLocked)
            && Step(pre, st, 2, InternLocked)
               == Two(table', released, owners[o := owners[o].(symbols := symbols)], stack1, pc1, NoResult,
                      Interned(o, text, s), r2, clock)
  {
  }

  lemma SecondUnlocks(pre: seq<Text>, table: Table, released: nat, owners: map<OwnerId, Owner>, symbols: set<Symbol>,
                      stack1: seq<OwnerId>, pc1: Pc, r2: Result, clock: nat, o: OwnerId, text: Text, s: Symbol)
    requires o in owners
    ensures var st := Two(table, released, owners[o := owners[o].(symbols := symbols)], stack1, pc1, NoResult,
                          Interned(o, text, s), r2, clock);
            var o' := owners[o].(symbols := symbols, issued := owners[o].issued + {(s, text)});
            && Enabled(pre, st, 2, UnlockOwner)
            && Step(pre, st, 2, UnlockOwner)
               == Two(table, released, owners[o := o'], stack1, pc1, NoResult, Idle, Named(s, text), clock)
  {
  }

  lemma SecondFinishes(pre: seq<Text>, shared: iset<OwnerId>, a: OwnerId, table: Table, released: nat,
                       owners: map<OwnerId, Owner>, stack1: seq<OwnerId>, pc1: Pc, r2: Result, clock: nat,
                       o: OwnerId, text: Text)
    requires Distinct(pre) && a in shared && o in owners
    requires stack1 == [] || stack1 == [a]
    requires pc1.Idle? || pc1.Looked?
    requires Reaches(pre, shared, Initial(pre),
                     Two(table, released, owners, stack1, pc1, NoResult, WantTable(o, text), r2, clock))
    ensures var (table', symbols, s) := Enroll(pre, table, owners[o].symbols, o, text);
            var o' := owners[o].(symbols := symbols, issued := owners[o].issued + {(s, text)});
            Reaches(pre, shared, Initial(pre),
                    Two(table', released, owners[o := o'], stack1, pc1, NoResult, Idle, Named(s, text), clock))
  {
    hide Reaches;
    var (table', symbols, s) := Enroll(pre, table, owners[o].symbols, o, text);
    var owners' := owners[o := owners[o].(symbols := symbols)];
    var st2 := Two(table, released, owners, stack1, pc1, NoResult, WantTable(o, text), r2, clock);
    var st3 := Two(table', released, owners', stack1, pc1, NoResult, Interned(o, text, s), r2, clock);
    SecondInternsLocked(pre, table, released, owners, stack1, pc1, r2, clock, o, text);
    Advance(pre, shared, st2, a, 2, InternLocked, st3);
    var o' := owners[o].(symbols := symbols, issued := owners[o].issued + {(s, text)});
    var st4 := Two(table', released, owners[o := o'], stack1, pc1, NoResult, Idle, Named(s, text), clock);
    SecondUnlocks(pre, table', released, owners, symbols, stack1, pc1, r2, clock, o, text, s);
    Advance(pre, shared, st3, a, 2, UnlockOwner, st4);
  }

  /** Two threads and two owners. */
  lemma Setup(pre: seq<Text>, shared: iset<OwnerId>, a: OwnerId, b: OwnerId)
    requires Distinct(pre) && a in shared && a != 0 && b != 0 && a != b
    ensures Reaches(pre, shared, Initial(pre),
                    Two(Preloaded(pre), 0, map[a := Owner({}, 1, 0, false, {}), b := Owner({}, 1, 1, false, {})],
                        [], Idle, NoResult, Idle, NoResult, 2))
  {
    var st := Initial(pre);
    assert Reaches(pre, shared, Initial(pre), st) by {
      var none: seq<Label> := [];
      assert Possible(pre, st, none) && RunKeepsTo(pre, shared, st, none) && After(pre, st, none) == st;
    }
    var st1 := st.(threads := map[1 := Thread([], Idle, Cache(0, []), NoResult)]);
    Advance(pre, shared, st, a, 1, Spawn, st1);
    var st2 := Two(Preloaded(pre), 0, map[], [], Idle, NoResult, Idle, NoResult, 0);
    Advance(pre, shared, st1, a, 2, Spawn, st2);
    var st3 := Two(Preloaded(pre), 0, map[a := Owner({}, 1, 0, false, {})], [], Idle, NoResult, Idle, NoResult, 1);
    Advance(pre, shared, st2, a, 1, NewOwner(a), st3);
    var owners := map[a := Owner({}, 1, 0, false, {}), b := Owner({}, 1, 1, false, {})];
    Advance(pre, shared, st3, a, 2, NewOwner(b),
            Two(Preloaded(pre), 0, owners, [], Idle, NoResult, Idle, NoResult, 2));
  }

  // The scenes of the bad run: `b` has enrolled `x`; thread 1 has looked `x` up for `a`; `b` is
  // being torn down; `b` is gone.

  function Enrolled(pre: seq<Text>, a: OwnerId, b: OwnerId, x: Text): State
    requires Distinct(pre) && x !in pre
  {
    Two(SlotWith(pre, x, b), 0,
        map[a := Owner({}, 1, 0, false, {}), b := Owner({|pre|}, 1, 1, false, {(|pre|, x)})],
        [], Idle, NoResult, Idle, Named(|pre|, x), 2)
  }

  function LookedUp(pre: seq<Text>, a: OwnerId, b: OwnerId, x: Text): State
    requires Distinct(pre) && x !in pre
  {
    Two(SlotWith(pre, x, b), 0,
        map[a := Owner({}, 1, 0, false, {}), b := Owner({|pre|}, 1, 1, false, {(|pre|, x)})],
        [a], Looked(x, Some((|pre|, Some(b)))), NoResult, Idle, Named(|pre|, x), 2)
  }

  function TearingDown(pre: seq<Text>, a: OwnerId, b: OwnerId, x: Text): State
    requires Distinct(pre) && x !in pre
  {
    Two(SlotWith(pre, x, b), 0,
        map[a := Owner({}, 1, 0, false, {}), b := Owner({|pre|}, 0, 1, true, {(|pre|, x)})],
        [a], Looked(x, Some((|pre|, Some(b)))), NoResult, Closing(b, None), Named(|pre|, x), 2)
  }

  function Gone(pre: seq<Text>, a: OwnerId, b: OwnerId, x: Text): State
    requires Distinct(pre) && x !in pre
  {
    Two(Clear(pre, Disown(pre, SlotWith(pre, x, b), |pre|), |pre|), 1, map[a := Owner({}, 1, 0, false, {})],
        [a], Looked(x, Some((|pre|, Some(b)))), NoResult, Idle, NoResult, 2)
  }

  lemma ToEnrolled(pre: seq<Text>, shared: iset<OwnerId>, a: OwnerId, b: OwnerId, x: Text)
    requires Distinct(pre) && x !in pre && a in shared && a != 0 && b != 0 && a != b
    ensures Reaches(pre, shared, Initial(pre), Enrolled(pre, a, b, x))
  {
    hide Reaches;
    var owners0 := map[a := Owner({}, 1, 0, false, {}), b := Owner({}, 1, 1, false, {})];
    Setup(pre, shared, a, b);
    FirstEnroll(pre, x, b);
    SecondEnrolls(pre, shared, a, Preloaded(pre), 0, owners0, [], Idle, NoResult, 2, b, x);
    assert {} + {(|pre|, x)} == {(|pre|, x)};
    assert owners0[b := Owner({|pre|}, 1, 1, false, {} + {(|pre|, x)})] == Enrolled(pre, a, b, x).owners;
  }

  lemma FirstEnters(pre: seq<Text>, a: OwnerId, b: OwnerId, x: Text, st1: State)
    requires Distinct(pre) && x !in pre && a != b
    requires var st0 := Enrolled(pre, a, b, x);
             st1 == Two(st0.table, 0, st0.owners, [a], Idle, NoResult, Idle, Named(|pre|, x), 2)
    ensures var st0 := Enrolled(pre, a, b, x); Enabled(pre, st0, 1, Enter(a)) && Step(pre, st0, 1, Enter(a)) == st1
  {
    var st0 := Enrolled(pre, a, b, x);
    assert [] + [a] == [a];
    assert st0.threads[1 := st1.threads[1]] == st1.threads;
  }

  lemma FirstAsks(pre: seq<Text>, table: Table, owners: map<OwnerId, Owner>, a: OwnerId, x: Text, r2: Result)
    requires x !in pre
    ensures var st1 := Two(table, 0, owners, [a], Idle, NoResult, Idle, r2, 2);
            Enabled(pre, st1, 1, StartIntern(x))
            && Step(pre, st1, 1, StartIntern(x)) == Two(table, 0, owners, [a], Lookup(x), NoResult, Idle, r2, 2)
  {
  }

  lemma FirstReads(pre: seq<Text>, a: OwnerId, b: OwnerId, x: Text)
    requires Distinct(pre) && x !in pre
    ensures var st1 := LookedUp(pre, a, b, x);
            var st0 := Two(st1.table, 0, st1.owners, [a], Lookup(x), NoResult, Idle, Named(|pre|, x), 2);
            Enabled(pre, st0, 1, ReadTable) && Step(pre, st0, 1, ReadTable) == st1
  {
    var st1 := LookedUp(pre, a, b, x);
    Second(st1.table, 0, st1.owners, [a], Lookup(x), NoResult, Idle, Named(|pre|, x), 2,
           Looked(x, Some((|pre|, Some(b)))), NoResult);
  }

  /** First act: thread 2 enrolls `x` for `b`, and thread 1, working for `a`, finds `b`'s symbol. */
  lemma ActOne(pre: seq<Text>, shared: iset<OwnerId>, a: OwnerId, b: OwnerId, x: Text)
    requires Distinct(pre) && x !in pre && a in shared && a != 0 && b != 0 && a != b
    ensures Reaches(pre, shared, Initial(pre), LookedUp(pre, a, b, x))
  {
    hide Reaches, Step, Enabled;
    var st0 := Enrolled(pre, a, b, x);
    var st1 := Two(st0.table, 0, st0.owners, [a], Idle, NoResult, Idle, Named(|pre|, x), 2);
    var st2 := Two(st0.table, 0, st0.owners, [a], Lookup(x), NoResult, Idle, Named(|pre|, x), 2);
    ToEnrolled(pre, shared, a, b, x);
    FirstEnters(pre, a, b, x, st1);
    FirstAsks(pre, st0.table, st0.owners, a, x, Named(|pre|, x));
    FirstReads(pre, a, b, x);
    Advance(pre, shared, st0, a, 1, Enter(a), st1);
    Advance(pre, shared, st1, a, 1, StartIntern(x), st2);
    Advance(pre, shared, st2, a, 1, ReadTable, LookedUp(pre, a, b, x));
  }

  lemma DropLast(pre: seq<Text>, table: Table, a: OwnerId, b: OwnerId, oa: Owner, symbols: set<Symbol>,
                 issued: set<(Symbol, Text)>, pc1: Pc, r2: Result)
    requires a != b && pc1.Looked?
    ensures var st := Two(table, 0, map[a := oa, b := Owner(symbols, 1, 1, false, issued)], [a], pc1, NoResult, Idle,
                          r2, 2);
            && Enabled(pre, st, 2, DropHandle(b))
            && Step(pre, st, 2, DropHandle(b))
               == Two(table, 0, map[a := oa, b := Owner(symbols, 0, 1, true, issued)], [a], pc1, NoResult,
                      WantClose(b), r2, 2)
  {
  }

  lemma CountOnly(pre: seq<Text>, table: Table, a: OwnerId, b: OwnerId, oa: Owner,
                  issued: set<(Symbol, Text)>, pc1: Pc, r2: Result)
    requires a != b && IsLive(pre, table, |pre|) && EntryOf(pre, table, |pre|).owners == 1
    ensures var st := Two(table, 0, map[a := oa, b := Owner({|pre|}, 0, 1, true, issued)], [a], pc1, NoResult,
                          Closing(b, None), r2, 2);
            && Enabled(pre, st, 2, CountRelease(|pre|))
            && Step(pre, st, 2, CountRelease(|pre|))
               == Two(Disown(pre, table, |pre|), 1, map[a := oa, b := Owner({}, 0, 1, true, issued)], [a], pc1,
                      NoResult, Closing(b, Some(|pre|)), r2, 2)
  {
    var closing := map[a := oa, b := Owner({|pre|}, 0, 1, true, issued)];
    var empty := map[a := oa, b := Owner({}, 0, 1, true, issued)];
    assert {|pre|} - {|pre|} == {};
    assert closing[b := empty[b]] == empty;
    Second(table, 0, closing, [a], pc1, NoResult, Closing(b, None), r2, 2, Closing(b, Some(|pre|)), r2);
  }

  lemma ClearOnly(pre: seq<Text>, table: Table, owners: map<OwnerId, Owner>, a: OwnerId, b: OwnerId, pc1: Pc,
                  r2: Result)
    requires IsLive(pre, table, |pre|)
    ensures var st := Two(table, 1, owners, [a], pc1, NoResult, Closing(b, Some(|pre|)), r2, 2);
            && Enabled(pre, st, 2, ClearSlot)
            && Step(pre, st, 2, ClearSlot)
               == Two(Clear(pre, table, |pre|), 1, owners, [a], pc1, NoResult, Closing(b, None), r2, 2)
  {
  }

  lemma FinishOnly(pre: seq<Text>, table: Table, a: OwnerId, b: OwnerId, oa: Owner,
                   issued: set<(Symbol, Text)>, pc1: Pc, r2: Result)
    requires a != b
    ensures var st := Two(table, 1, map[a := oa, b := Owner({}, 0, 1, true, issued)], [a], pc1, NoResult,
                          Closing(b, None), r2, 2);
            && Enabled(pre, st, 2, FinishClose)
            && Step(pre, st, 2, FinishClose) == Two(table, 1, map[a := oa], [a], pc1, NoResult, Idle, NoResult, 2)
  {
  }

  lemma ToTearingDown(pre: seq<Text>, shared: iset<OwnerId>, a: OwnerId, b: OwnerId, x: Text)
    requires Distinct(pre) && x !in pre && a in shared && a != 0 && b != 0 && a != b
    ensures Reaches(pre, shared, Initial(pre), TearingDown(pre, a, b, x))
  {
    hide Reaches;
    var st0, st2 := LookedUp(pre, a, b, x), TearingDown(pre, a, b, x);
    var pc, named := st0.threads[1].pc, Named(|pre|, x);
    var st1 := Two(st0.table, 0, st2.owners, [a], pc, NoResult, WantClose(b), named, 2);
    ActOne(pre, shared, a, b, x);
    DropLast(pre, st0.table, a, b, st0.owners[a], {|pre|}, {(|pre|, x)}, pc, named);
    Advance(pre, shared, st0, a, 2, DropHandle(b), st1);
    Second(st0.table, 0, st2.owners, [a], pc, NoResult, WantClose(b), named, 2, Closing(b, None), named);
    Advance(pre, shared, st1, a, 2, LockTable, st2);
  }

  /** Thread 2 drops the last handle of `b`, and `b`'s only slot is emptied. */
  lemma DropB(pre: seq<Text>, shared: iset<OwnerId>, a: OwnerId, b: OwnerId, x: Text)
    requires Distinct(pre) && x !in pre && a in shared && a != 0 && b != 0 && a != b
    ensures Reaches(pre, shared, Initial(pre), Gone(pre, a, b, x))
  {
    hide Reaches, Step, Enabled;
    var st0, st3 := TearingDown(pre, a, b, x), Gone(pre, a, b, x);
    var t1, t2, t3 := st0.table, Disown(pre, st0.table, |pre|), st3.table;
    var pc, named, oa := st0.threads[1].pc, Named(|pre|, x), st0.owners[a];
    var empty := map[a := oa, b := Owner({}, 0, 1, true, {(|pre|, x)})];
    var st1 := Two(t2, 1, empty, [a], pc, NoResult, Closing(b, Some(|pre|)), named, 2);
    var st2 := Two(t3, 1, empty, [a], pc, NoResult, Closing(b, None), named, 2);
    ToTearingDown(pre, shared, a, b, x);
    CountOnly(pre, t1, a, b, oa, {(|pre|, x)}, pc, named);
    Advance(pre, shared, st0, a, 2, CountRelease(|pre|), st1);
    ClearOnly(pre, t2, empty, a, b, pc, named);
    FinishOnly(pre, t3, a, b, oa, {(|pre|, x)}, pc, named);
    Advance(pre, shared, st1, a, 2, ClearSlot, st2);
    Advance(pre, shared, st2, a, 2, FinishClose, st3);
  }

  /** Second act: `b` is dropped, its slot is emptied, and thread 2 refills it with `y` for `a`. */
  lemma ActTwo(pre: seq<Text>, shared: iset<OwnerId>, a: OwnerId, b: OwnerId, x: Text, y: Text)
    requires Distinct(pre) && x !in pre && y !in pre && a in shared && a != 0 && b != 0 && a != b
    ensures Reaches(pre, shared, Initial(pre),
                    Two(SlotWith(pre, y, a), 1, map[a := Owner({|pre|}, 1, 0, false, {(|pre|, y)})],
                        [a], Looked(x, Some((|pre|, Some(b)))), NoResult, Idle, Named(|pre|, y), 2))
  {
    hide Reaches;
    var t2 := Clear(pre, Disown(pre, SlotWith(pre, x, b), |pre|), |pre|);
    var owners := map[a := Owner({}, 1, 0, false, {})];
    DropB(pre, shared, a, b, x);
    RefillEnroll(pre, x, y, b, a);
    SecondEnrolls(pre, shared, a, t2, 1, owners, [a], Looked(x, Some((|pre|, Some(b)))), NoResult, 2, a, y);
    var oa := Owner({|pre|}, 1, 0, false, {(|pre|, y)});
    assert {} + {(|pre|, y)} == {(|pre|, y)};
    assert owners[a := Owner({|pre|}, 1, 0, false, {} + {(|pre|, y)})] == map[a := oa];
  }

  /** Third act: thread 1 finds the stale symbol in `a`'s set and returns it for `x`. */
  lemma SharedOwnerGoesWrong(pre: seq<Text>, shared: iset<OwnerId>, a: OwnerId, b: OwnerId, x: Text, y: Text)
    requires Distinct(pre) && x !in pre && y !in pre && x != y && a in shared && a != 0 && b != 0 && a != b
    ensures exists st :: && Reaches(pre, shared, Initial(pre), st)
                         && OpenOwner(st, a) && (|pre|, x) in st.owners[a].issued
                         && TextOf(pre, st.table, |pre|) == Some(y)
    ensures exists st, t, act :: && Reaches(pre, shared, Initial(pre), st)
                                 && EndsIntern(pre, st, t, act) && !AnswersRight(pre, st, t, act)
  {
    hide *;
    ToAccepting(pre, shared, a, b, x, y);
    AcceptsStale(pre, shared, a, x, y);
  }

  /** The owner that holds the refilled slot, and the state in which thread 1 asks for the symbol it found. */
  function Accepting(pre: seq<Text>, a: OwnerId, x: Text, y: Text): State
    requires Distinct(pre) && y !in pre
  {
    Two(SlotWith(pre, y, a), 1, map[a := Owner({|pre|}, 1, 0, false, {(|pre|, y)})], [a], CheckExisting(x, |pre|),
        NoResult, Idle, Named(|pre|, y), 2)
  }

  lemma ToAccepting(pre: seq<Text>, shared: iset<OwnerId>, a: OwnerId, b: OwnerId, x: Text, y: Text)
    requires Distinct(pre) && x !in pre && y !in pre && x != y && a in shared && a != 0 && b != 0 && a != b
    ensures Reaches(pre, shared, Initial(pre), Accepting(pre, a, x, y))
  {
    hide Reaches;
    ActTwo(pre, shared, a, b, x, y);
    var table, named := SlotWith(pre, y, a), Named(|pre|, y);
    var owners := map[a := Owner({|pre|}, 1, 0, false, {(|pre|, y)})];
    var pc := Looked(x, Some((|pre|, Some(b))));
    Second(table, 1, owners, [a], pc, NoResult, Idle, named, 2, CheckExisting(x, |pre|), NoResult);
    Advance(pre, shared, Two(table, 1, owners, [a], pc, NoResult, Idle, named, 2), a, 1, Decide,
            Accepting(pre, a, x, y));
  }

  lemma AcceptsStale(pre: seq<Text>, shared: iset<OwnerId>, a: OwnerId, x: Text, y: Text)
    requires Distinct(pre) && x !in pre && y !in pre && x != y && a in shared
    requires Reaches(pre, shared, Initial(pre), Accepting(pre, a, x, y))
    ensures exists st :: && Reaches(pre, shared, Initial(pre), st)
                         && OpenOwner(st, a) && (|pre|, x) in st.owners[a].issued
                         && TextOf(pre, st.table, |pre|) == Some(y)
    ensures exists st, t, act :: && Reaches(pre, shared, Initial(pre), st)
                                 && EndsIntern(pre, st, t, act) && !AnswersRight(pre, st, t, act)
  {
    hide Reaches;
    var st1 := Accepting(pre, a, x, y);
    var st := Step(pre, st1, 1, ReadOwner);
    Advance(pre, shared, st1, a, 1, ReadOwner, st);
    assert EndsIntern(pre, st1, 1, ReadOwner) && !AnswersRight(pre, st1, 1, ReadOwner);
    assert Reaches(pre, shared, Initial(pre), st) && OpenOwner(st, a) && (|pre|, x) in st.owners[a].issued
           && TextOf(pre, st.table, |pre|) == Some(y);
  }

  /** Two texts longer than every preloaded one. */
  lemma {:induction false} UnusedTexts(pre: seq<Text>) returns (x: Text, y: Text)
    ensures x !in pre && y !in pre && x != y
    ensures |x| < |y| && forall p :: p in pre ==> |p| < |x|
  {
    if pre == [] {
      x, y := "a", "aa";
    } else {
      x, y := UnusedTexts(pre[1..]);
      x := x + seq(|pre[0]|, _ => 'a') + "a";
      y := x + "a";
      assert forall p :: p in pre ==> p == pre[0] || p in pre[1..];
    }
  }

  /** Interning never returns a wrong name, in any run, if and only if no owner may be used by
      two threads at once, and then no name returned ever becomes wrong while its owner lives. (Address
      zero is no owner's.) */
  lemma InterningSafeIffUnshared(pre: seq<Text>, shared: iset<OwnerId>)
    requires Distinct(pre)
    ensures InterningSafe(pre, shared) <==> forall o :: o in shared ==> o == 0
    ensures NamesStayRight(pre, shared) <==> forall o :: o in shared ==> o == 0
  {
    if forall o :: o in shared ==> o == 0 {
      UnsharedIsSafe(pre, shared);
      UnsharedStaysRight(pre, shared);
    } else {
      var a :| a in shared && a != 0;
      SharedIsUnsafe(pre, shared, a);
    }
  }

  lemma UnsharedIsSafe(pre: seq<Text>, shared: iset<OwnerId>)
    requires Distinct(pre) && forall o :: o in shared ==> o == 0
    ensures InterningSafe(pre, shared)
  {
    forall run, t, a |
      Possible(pre, Initial(pre), run) && RunKeepsTo(pre, shared, Initial(pre), run)
      && EndsIntern(pre, After(pre, Initial(pre), run), t, a)
      ensures AnswersRight(pre, After(pre, Initial(pre), run), t, a)
    {
      hide *;
      ReachableInv(pre, run);
      OwnerOfAnswer(pre, After(pre, Initial(pre), run), t, a);
      InternReturnsRetainedName(pre, shared, run, t, a);
    }
  }

  /** An interning that ends with a name after a lock was taken works for an owner. */
  lemma OwnerOfAnswer(pre: seq<Text>, st: State, t: Tid, a: Action)
    requires Inv(pre, Everyone(), st) && EndsIntern(pre, st, t, a)
    ensures var owner := OwnerOfOp(st.threads[t]);
            !a.StartIntern? ==> owner.Some? && owner.value != 0
  {
    hide Valid, HoldsOnlyLive, Counted, SoleExact, UnownedIsCounted, CacheOk, Apart;
    if !a.StartIntern? {
      var th := st.threads[t];
      assert ThreadOk(pre, Everyone(), st, th);
      assert th.stack != [] ==> Active(th).value in th.stack;
      var o := OwnerOfOp(th).value;
      assert OwnerOk(pre, Everyone(), st, o);
    }
  }

  lemma UnsharedStaysRight(pre: seq<Text>, shared: iset<OwnerId>)
    requires Distinct(pre) && forall o :: o in shared ==> o == 0
    ensures NamesStayRight(pre, shared)
  {
    forall run | Possible(pre, Initial(pre), run) && RunKeepsTo(pre, shared, Initial(pre), run)
      ensures AllIssuedRight(pre, After(pre, Initial(pre), run))
    {
      hide RunKeepsTo, Possible, After;
      IssuedNamesStayGood(pre, shared, run);
      ReachableInv(pre, run);
      var st := After(pre, Initial(pre), run);
      forall o | OpenOwner(st, o) ensures o !in shared {
        assert OwnerOk(pre, Everyone(), st, o);
      }
    }
  }

  lemma SharedIsUnsafe(pre: seq<Text>, shared: iset<OwnerId>, a: OwnerId)
    requires Distinct(pre) && a in shared && a != 0
    ensures !InterningSafe(pre, shared) && !NamesStayRight(pre, shared)
  {
    hide RunKeepsTo, Possible, After, EndsIntern, AnswersRight;
    var b := if a == 1 then 2 else 1;
    var x, y := UnusedTexts(pre);
    SharedOwnerGoesWrong(pre, shared, a, b, x, y);
    var st :| && Reaches(pre, shared, Initial(pre), st)
              && OpenOwner(st, a) && (|pre|, x) in st.owners[a].issued && TextOf(pre, st.table, |pre|) == Some(y);
    assert !AllIssuedRight(pre, st);
    var st1, t, act :| && Reaches(pre, shared, Initial(pre), st1)
                       && EndsIntern(pre, st1, t, act) && !AnswersRight(pre, st1, t, act);
  }
}
