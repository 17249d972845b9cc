/** What whole operations return, from the request to the answer, whatever the other threads do
    in between. */
module SymbolOperations {
  import opened Options
  import opened SymbolTable
  import opened SymbolSystem
  import opened SymbolInvariant
  import opened SymbolTheorems

  /** In this run thread `t` only goes on with what it is doing. */
  predicate GoesOn(run: seq<Label>, t: Tid) {
    forall i :: 0 <= i < |run| && run[i].0 == t ==> Continues(run[i].1)
  }

  // ----- What other threads leave alone -----

  lemma ContinuesApart(pre: seq<Text>, st: State, u: Tid, a: Action, t: Tid)
    requires Enabled(pre, st, u, a) && Continues(a) && t in st.threads && t != u
    ensures t in Step(pre, st, u, a).threads && Step(pre, st, u, a).threads[t] == st.threads[t]
  {
    hide Enroll, Disown, Clear, Load, ReadSpellings;
  }

  lemma StartsApart(pre: seq<Text>, st: State, u: Tid, a: Action, t: Tid)
    requires Enabled(pre, st, u, a) && !Continues(a) && t in st.threads && t != u
    ensures t in Step(pre, st, u, a).threads && Step(pre, st, u, a).threads[t] == st.threads[t]
  {
  }

  /** A step is its thread's own. */
  lemma OthersStay(pre: seq<Text>, st: State, u: Tid, a: Action, t: Tid)
    requires Enabled(pre, st, u, a) && t in st.threads && t != u
    ensures t in Step(pre, st, u, a).threads && Step(pre, st, u, a).threads[t] == st.threads[t]
  {
    hide Step, Enabled, Continues;
    if Continues(a) {
      ContinuesApart(pre, st, u, a, t);
    } else {
      StartsApart(pre, st, u, a, t);
    }
  }

  /** An owner that is open before and after a step is the same incarnation. */
  lemma StaysIncarnate(pre: seq<Text>, shared: iset<OwnerId>, st: State, t: Tid, a: Action, o: OwnerId, birth: nat)
    requires Inv(pre, shared, st) && Enabled(pre, st, t, a) && Incarnate(st, o, birth)
    requires OpenOwner(Step(pre, st, t, a), o)
    ensures Incarnate(Step(pre, st, t, a), o, birth)
  {
    hide Step, Enabled, Continues, Inv;
    if a.FinishClose? {
      FinishCloseUndisturbed(pre, shared, st, t, o);
    } else if a.InternLocked? {
      InternLockedBirth(pre, st, t, o);
    } else if a.CountRelease? {
      CountReleaseWrites(pre, st, t, a.symbol);
    } else if a.ClearSlot? {
      ClearSlotWrites(pre, st, t);
    } else if Continues(a) {
      OperationsUndisturbed(pre, st, t, a, o);
    } else {
      StartsUndisturbed(pre, st, t, a, o);
    }
  }

  lemma InternLockedBirth(pre: seq<Text>, st: State, t: Tid, o: OwnerId)
    requires Enabled(pre, st, t, InternLocked) && o in st.owners
    ensures var st' := Step(pre, st, t, InternLocked);
            o in st'.owners && st'.owners[o].birth == st.owners[o].birth
  {
    hide Enroll;
  }

  /** While this incarnation of `o` is open, `s` spells `x` and `o` retains it. */
  ghost predicate Kept(pre: seq<Text>, st: State, o: OwnerId, birth: nat, s: Symbol, x: Text) {
    Incarnate(st, o, birth) ==> Good(pre, st, o, s, x)
  }

  lemma KeptOn(pre: seq<Text>, shared: iset<OwnerId>, st: State, t: Tid, a: Action, o: OwnerId, birth: nat, s: Symbol,
               x: Text)
    requires Inv(pre, shared, st) && Enabled(pre, st, t, a) && birth < st.clock && Kept(pre, st, o, birth, s, x)
    ensures Kept(pre, Step(pre, st, t, a), o, birth, s, x) && birth < Step(pre, st, t, a).clock
  {
    hide Step, Enabled, Inv;
    GrowsOlder(pre, st, t, a, birth);
    if Incarnate(Step(pre, st, t, a), o, birth) {
      if !Incarnate(st, o, birth) {
        GoneStep(pre, st, t, a, o, birth);
      } else if !IsPreloaded(pre, s) {
        HeldStep(pre, shared, st, t, a, o, s);
      }
    }
  }

  lemma GrowsOlder(pre: seq<Text>, st: State, t: Tid, a: Action, birth: nat)
    requires Enabled(pre, st, t, a) && birth < st.clock
    ensures birth < Step(pre, st, t, a).clock
  {
    hide Enroll, Disown, Clear, Load, ReadSpellings;
  }

  // ----- Interning -----

  /** The thread's interning of `x` for `o` as it stands: under way with that text and owner, or
      answered. */
  ghost predicate Interning(pre: seq<Text>, shared: iset<OwnerId>, st: State, t: Tid, o: Option<OwnerId>, birth: nat,
                            x: Text)
  {
    && t in st.threads && (o.Some? ==> birth < st.clock)
    && (st.threads[t].pc.Idle? ==> Answered(pre, st, st.threads[t].result, o, birth, x))
    && (!st.threads[t].pc.Idle? ==> Asks(shared, st.threads[t], o, x))
    && (o.Some? && InUse(st.threads[t], o.value) ==> Incarnate(st, o.value, birth))
  }

  /** An owner the thread is inside of, or works for. */
  predicate InUse(th: Thread, o: OwnerId) { !th.pc.Idle? || o in th.stack }

  ghost predicate Answered(pre: seq<Text>, st: State, r: Result, o: Option<OwnerId>, birth: nat, x: Text) {
    if o.None? then r.Panicked? else r.Named? && r.text == x && Kept(pre, st, o.value, birth, r.symbol, x)
  }

  ghost predicate Asks(shared: iset<OwnerId>, th: Thread, o: Option<OwnerId>, x: Text) {
    && (th.pc.Lookup? || th.pc.Looked? || th.pc.CheckExisting? ==>
          th.pc.text == x && Active(th) == o && (o.Some? ==> o.value !in shared))
    && (th.pc.WantOwner? || th.pc.WantTable? || th.pc.Interned? ==> th.pc.text == x && Some(th.pc.owner) == o)
    && (th.pc.Lookup? || th.pc.Looked? || th.pc.CheckExisting? || th.pc.WantOwner? || th.pc.WantTable?
        || th.pc.Interned?)
  }

  lemma LockStepsAsk(pre: seq<Text>, shared: iset<OwnerId>, st: State, t: Tid, a: Action, o: Option<OwnerId>,
                     birth: nat, x: Text)
    requires Inv(pre, shared, st) && Enabled(pre, st, t, a) && (a.ReadTable? || a.LockOwner? || a.InternLocked?)
    requires Interning(pre, shared, st, t, o, birth, x)
    ensures Interning(pre, shared, Step(pre, st, t, a), t, o, birth, x)
  {
    hide Enroll, Inv;
  }

  lemma AnswersKeep(pre: seq<Text>, shared: iset<OwnerId>, st: State, t: Tid, a: Action, o: Option<OwnerId>,
                    birth: nat, x: Text)
    requires Inv(pre, shared, st) && Enabled(pre, st, t, a) && (a.Decide? || a.ReadOwner? || a.UnlockOwner?)
    requires Interning(pre, shared, st, t, o, birth, x)
    ensures Interning(pre, shared, Step(pre, st, t, a), t, o, birth, x)
  {
    hide MemoryInv, CacheOk, Apart;
    assert ThreadOk(pre, shared, st, st.threads[t]);
  }

  /** Every step, of whichever thread, keeps an interning on its way to the right answer. */
  lemma InterningGoesOn(pre: seq<Text>, shared: iset<OwnerId>, st: State, u: Tid, a: Action, t: Tid,
                        o: Option<OwnerId>, birth: nat, x: Text)
    requires Inv(pre, shared, st) && KeepsTo(shared, st) && Enabled(pre, st, u, a) && (u == t ==> Continues(a))
    requires Interning(pre, shared, st, t, o, birth, x)
    ensures Interning(pre, shared, Step(pre, st, u, a), t, o, birth, x)
  {
    if u == t {
      assert Continues(a) && !st.threads[t].pc.Idle?;
      if a.Decide? || a.ReadOwner? || a.UnlockOwner? {
        AnswersKeep(pre, shared, st, t, a, o, birth, x);
      } else {
        LockStepsAsk(pre, shared, st, t, a, o, birth, x);
      }
    } else {
      hide Step, Enabled, Inv, MemoryInv;
      OthersStay(pre, st, u, a, t);
      if o.Some? {
        GrowsOlder(pre, st, u, a, birth);
        if st.threads[t].pc.Idle? {
          KeptOn(pre, shared, st, u, a, o.value, birth, st.threads[t].result.symbol, x);
        }
        if InUse(st.threads[t], o.value) {
          StepKeeps(pre, shared, st, u, a);
          OwnerInUse(pre, shared, Step(pre, st, u, a), t, o.value, x);
          StaysIncarnate(pre, shared, st, u, a, o.value, birth);
        }
      }
    }
  }

  lemma OwnerInUse(pre: seq<Text>, shared: iset<OwnerId>, st: State, t: Tid, o: OwnerId, x: Text)
    requires Inv(pre, shared, st) && t in st.threads && InUse(st.threads[t], o)
    requires !st.threads[t].pc.Idle? ==> Asks(shared, st.threads[t], Some(o), x)
    ensures OpenOwner(st, o)
  {
    assert ThreadOk(pre, shared, st, st.threads[t]);
    assert Active(st.threads[t]).Some? ==> Active(st.threads[t]).value in st.threads[t].stack;
  }

  lemma {:induction false} InterningRuns(pre: seq<Text>, shared: iset<OwnerId>, st: State, run: seq<Label>, t: Tid,
                                         o: Option<OwnerId>, birth: nat, x: Text)
    requires Inv(pre, shared, st) && Possible(pre, st, run) && RunKeepsTo(pre, shared, st, run) && GoesOn(run, t)
    requires Interning(pre, shared, st, t, o, birth, x)
    ensures Interning(pre, shared, After(pre, st, run), t, o, birth, x)
    decreases |run|
  {
    if run != [] {
      hide Step, Enabled, Inv, Interning;
      var (u, a) := run[0];
      StepKeeps(pre, shared, st, u, a);
      InterningGoesOn(pre, shared, st, u, a, t, o, birth, x);
      assert GoesOn(run[1..], t);
      InterningRuns(pre, shared, Step(pre, st, u, a), run[1..], t, o, birth, x);
    }
  }

  // ----- From request to answer -----

  lemma OwnStackStays(pre: seq<Text>, st: State, t: Tid, a: Action)
    requires Enabled(pre, st, t, a) && Continues(a)
    ensures t in st.threads && t in Step(pre, st, t, a).threads
    ensures Step(pre, st, t, a).threads[t].stack == st.threads[t].stack
    ensures !st.threads[t].pc.Idle?
  {
    hide Enroll, Disown, Clear, Load, ReadSpellings;
  }

  /** A thread that only goes on stays inside the owners it is inside of; once idle it stays idle, with
      the answer it has. */
  lemma {:induction false} ThreadStays(pre: seq<Text>, st: State, run: seq<Label>, t: Tid)
    requires Possible(pre, st, run) && GoesOn(run, t) && t in st.threads
    ensures t in After(pre, st, run).threads
    ensures After(pre, st, run).threads[t].stack == st.threads[t].stack
    ensures st.threads[t].pc.Idle? ==> After(pre, st, run).threads[t] == st.threads[t]
    decreases |run|
  {
    if run != [] {
      hide Step, Enabled;
      var (u, a) := run[0];
      if u == t {
        assert Continues(a);
        OwnStackStays(pre, st, t, a);
      } else {
        OthersStay(pre, st, u, a, t);
      }
      assert GoesOn(run[1..], t);
      ThreadStays(pre, Step(pre, st, u, a), run[1..], t);
    }
  }

  lemma BeginnerStays(pre: seq<Text>, st: State, t: Tid, a: Action)
    requires Enabled(pre, st, t, a)
    ensures t in Step(pre, st, t, a).threads
  {
    hide Enroll, Disown, Clear, Load, ReadSpellings, Retain;
  }

  /** A request `a` made by `t` after one run, and a second run in which `t` only goes on with it. */
  ghost predicate Request(pre: seq<Text>, shared: iset<OwnerId>, before: seq<Label>, t: Tid, a: Action,
                          during: seq<Label>)
    requires Distinct(pre)
  {
    && Possible(pre, Initial(pre), before) && RunKeepsTo(pre, shared, Initial(pre), before)
    && var st := After(pre, Initial(pre), before);
    && Enabled(pre, st, t, a) && !a.Spawn? && !Continues(a)
    && Possible(pre, Step(pre, st, t, a), during) && RunKeepsTo(pre, shared, Step(pre, st, t, a), during)
    && GoesOn(during, t)
  }

  ghost function Asked(pre: seq<Text>, shared: iset<OwnerId>, before: seq<Label>, t: Tid, a: Action,
                       during: seq<Label>): (st: State)
    requires Distinct(pre) && Request(pre, shared, before, t, a, during)
    ensures t in st.threads
  {
    After(pre, Initial(pre), before)
  }

  ghost function Ended(pre: seq<Text>, shared: iset<OwnerId>, before: seq<Label>, t: Tid, a: Action,
                       during: seq<Label>): (st: State)
    requires Distinct(pre) && Request(pre, shared, before, t, a, during)
    ensures t in st.threads
  {
    var st0 := After(pre, Initial(pre), before);
    BeginnerStays(pre, st0, t, a);
    ThreadStays(pre, Step(pre, st0, t, a), during, t);
    After(pre, Step(pre, After(pre, Initial(pre), before), t, a), during)
  }

  lemma {:induction false} KeepsToAtEnd(pre: seq<Text>, shared: iset<OwnerId>, st: State, run: seq<Label>)
    requires Possible(pre, st, run) && RunKeepsTo(pre, shared, st, run)
    ensures KeepsTo(shared, After(pre, st, run))
    decreases |run|
  {
    if run != [] {
      KeepsToAtEnd(pre, shared, Step(pre, st, run[0].0, run[0].1), run[1..]);
    }
  }

  /** The invariant when the request is made, just after, and at the end. */
  lemma RequestInv(pre: seq<Text>, shared: iset<OwnerId>, before: seq<Label>, t: Tid, a: Action, during: seq<Label>)
    requires Distinct(pre) && Request(pre, shared, before, t, a, during)
    ensures var st := Asked(pre, shared, before, t, a, during);
            Inv(pre, shared, st) && Inv(pre, shared, Step(pre, st, t, a))
    ensures Inv(pre, shared, Ended(pre, shared, before, t, a, during))
  {
    hide Possible, RunKeepsTo, Inv, Enabled, Step, Initial;
    InitialInv(pre, shared);
    var st := Asked(pre, shared, before, t, a, during);
    RunKeeps(pre, shared, Initial(pre), before);
    KeepsToAtEnd(pre, shared, Initial(pre), before);
    StepKeeps(pre, shared, st, t, a);
    RunKeeps(pre, shared, Step(pre, st, t, a), during);
  }

  lemma BeginsInterning(pre: seq<Text>, shared: iset<OwnerId>, st: State, t: Tid, x: Text)
    requires Inv(pre, shared, st) && Enabled(pre, st, t, StartIntern(x)) && x !in pre
    requires var owner := Active(st.threads[t]); owner.Some? ==> owner.value !in shared
    ensures var owner := Active(st.threads[t]);
            && (owner.Some? ==> owner.value in st.owners)
            && Interning(pre, shared, Step(pre, st, t, StartIntern(x)), t, owner,
                         if owner.Some? then st.owners[owner.value].birth else 0, x)
  {
    assert ThreadOk(pre, shared, st, st.threads[t]);
    var owner := Active(st.threads[t]);
    if owner.Some? {
      assert owner.value in st.threads[t].stack;
      assert OwnerOk(pre, shared, st, owner.value);
    }
  }

  /** `Name::intern`, as a whole, with the active owner not shared. A preloaded text gives its preloaded
      symbol. Any other panics exactly when no owner is active; otherwise it gives a name that spells the
      text and that the owner retains, at the answer and for as long as the thread does nothing else. */
  lemma InternIsRight(pre: seq<Text>, shared: iset<OwnerId>, before: seq<Label>, t: Tid, x: Text, during: seq<Label>)
    requires Distinct(pre) && Request(pre, shared, before, t, StartIntern(x), during)
    requires var owner := Active(Asked(pre, shared, before, t, StartIntern(x), during).threads[t]);
             owner.Some? ==> owner.value !in shared
    requires Ended(pre, shared, before, t, StartIntern(x), during).threads[t].pc.Idle?
    ensures var st := Ended(pre, shared, before, t, StartIntern(x), during);
            var owner := Active(Asked(pre, shared, before, t, StartIntern(x), during).threads[t]);
            var r := st.threads[t].result;
            && (x in pre ==> r.Named? && r.text == x && r.symbol < |pre| && pre[r.symbol] == x)
            && (x !in pre && owner.None? ==> r.Panicked?)
            && (x !in pre && owner.Some? ==>
                  && r.Named? && r.text == x && TextOf(pre, st.table, r.symbol) == Some(x)
                  && OpenOwner(st, owner.value) && r.symbol in st.owners[owner.value].symbols)
  {
    hide Possible, RunKeepsTo, Inv, Interning;
    var a := StartIntern(x);
    RequestInv(pre, shared, before, t, a, during);
    var st0 := Asked(pre, shared, before, t, a, during);
    var st1, owner := Step(pre, st0, t, a), Active(st0.threads[t]);
    ThreadStays(pre, st1, during, t);
    if x !in pre {
      BeginsInterning(pre, shared, st0, t, x);
      var birth := if owner.Some? then st0.owners[owner.value].birth else 0;
      InterningRuns(pre, shared, st1, during, t, owner, birth, x);
      EndsInterning(pre, shared, Ended(pre, shared, before, t, a, during), t, owner, birth, x);
    }
  }

  lemma EndsInterning(pre: seq<Text>, shared: iset<OwnerId>, st: State, t: Tid, o: Option<OwnerId>, birth: nat, x: Text)
    requires Interning(pre, shared, st, t, o, birth, x) && st.threads[t].pc.Idle? && Active(st.threads[t]) == o
    requires x !in pre
    ensures var r := st.threads[t].result;
            && (o.None? ==> r.Panicked?)
            && (o.Some? ==> r.Named? && r.text == x && TextOf(pre, st.table, r.symbol) == Some(x)
                            && OpenOwner(st, o.value) && r.symbol in st.owners[o.value].symbols)
  {
  }

  lemma BeginsOwnerIntern(pre: seq<Text>, shared: iset<OwnerId>, st: State, t: Tid, o: OwnerId, x: Text)
    requires Inv(pre, shared, st) && Enabled(pre, st, t, StartOwnerIntern(o, x))
    ensures o in st.owners
    ensures Interning(pre, shared, Step(pre, st, t, StartOwnerIntern(o, x)), t, Some(o), st.owners[o].birth, x)
  {
    assert OwnerOk(pre, shared, st, o);
  }

  /** `SymbolOwner::intern` through a handle, shared or not: it never panics for want of an owner, and
      its name spells the text and is retained for as long as that owner lives. */
  lemma OwnerInternIsRight(pre: seq<Text>, shared: iset<OwnerId>, before: seq<Label>, t: Tid, o: OwnerId, x: Text,
                           during: seq<Label>)
    requires Distinct(pre) && Request(pre, shared, before, t, StartOwnerIntern(o, x), during)
    requires Ended(pre, shared, before, t, StartOwnerIntern(o, x), during).threads[t].pc.Idle?
    ensures var asked := Asked(pre, shared, before, t, StartOwnerIntern(o, x), during);
            var st := Ended(pre, shared, before, t, StartOwnerIntern(o, x), during);
            var r := st.threads[t].result;
            && r.Named? && r.text == x && o in asked.owners
            && (Incarnate(st, o, asked.owners[o].birth) ==>
                  && TextOf(pre, st.table, r.symbol) == Some(x)
                  && (IsPreloaded(pre, r.symbol) || r.symbol in st.owners[o].symbols))
  {
    hide Possible, RunKeepsTo, Inv;
    var a := StartOwnerIntern(o, x);
    RequestInv(pre, shared, before, t, a, during);
    var st0 := Asked(pre, shared, before, t, a, during);
    BeginsOwnerIntern(pre, shared, st0, t, o, x);
    InterningRuns(pre, shared, Step(pre, st0, t, a), during, t, Some(o), st0.owners[o].birth, x);
  }

  // ----- Entering an owner -----

  /** In this run thread `t` enters and leaves no owner. */
  predicate StaysInside(run: seq<Label>, t: Tid) {
    forall i :: 0 <= i < |run| && run[i].0 == t ==> !run[i].1.Enter? && !run[i].1.Exit? && !run[i].1.Spawn?
  }

  lemma StartKeepsStack(pre: seq<Text>, st: State, t: Tid, a: Action)
    requires Enabled(pre, st, t, a) && !Continues(a) && !a.Enter? && !a.Exit? && !a.Spawn?
    ensures t in st.threads && t in Step(pre, st, t, a).threads
    ensures Step(pre, st, t, a).threads[t].stack == st.threads[t].stack
  {
  }

  lemma {:induction false} StackStays(pre: seq<Text>, st: State, run: seq<Label>, t: Tid)
    requires Possible(pre, st, run) && StaysInside(run, t) && t in st.threads
    ensures t in After(pre, st, run).threads
    ensures After(pre, st, run).threads[t].stack == st.threads[t].stack
    decreases |run|
  {
    if run != [] {
      hide Step, Enabled, Continues;
      var (u, a) := run[0];
      if u != t {
        OthersStay(pre, st, u, a, t);
      } else if Continues(a) {
        OwnStackStays(pre, st, t, a);
      } else {
        assert !run[0].1.Enter? && !run[0].1.Exit? && !run[0].1.Spawn?;
        StartKeepsStack(pre, st, t, a);
      }
      assert StaysInside(run[1..], t);
      StackStays(pre, Step(pre, st, u, a), run[1..], t);
    }
  }

  /** From entering an owner to leaving it, that owner is the active one, whatever the thread does inside
      and the others do meanwhile; leaving makes the one before active again. */
  lemma GuardsNest(pre: seq<Text>, st: State, t: Tid, o: OwnerId, inside: seq<Label>)
    requires Enabled(pre, st, t, Enter(o)) && Possible(pre, Step(pre, st, t, Enter(o)), inside)
    requires StaysInside(inside, t)
    ensures t in st.threads
    ensures var now := After(pre, Step(pre, st, t, Enter(o)), inside);
            && t in now.threads && Active(now.threads[t]) == Some(o)
            && (Enabled(pre, now, t, Exit) ==>
                  var left := Step(pre, now, t, Exit);
                  t in left.threads && left.threads[t].stack == st.threads[t].stack)
  {
    StackStays(pre, Step(pre, st, t, Enter(o)), inside, t);
  }

  // ----- Looking a name up -----

  /** A lookup as it stands: under way, or answered. `held` is what the owner retained under the text
      when it was asked for. */
  ghost predicate Looking(pre: seq<Text>, st: State, t: Tid, o: OwnerId, birth: nat, x: Text, held: Option<Symbol>) {
    && t in st.threads && birth < st.clock && o in st.threads[t].stack && Active(st.threads[t]) == Some(o)
    && Incarnate(st, o, birth) && (held.Some? ==> Kept(pre, st, o, birth, held.value, x))
    && x !in pre
    && var th := st.threads[t];
    && (th.pc.OwnedWantOwner? || th.pc.OwnedWantTable? || th.pc.Idle?)
    && (th.pc.OwnedWantOwner? || th.pc.OwnedWantTable? ==> th.pc.text == x)
    && (th.pc.Idle? ==>
          && th.result.Owned? && th.result.text == x
          && (held.Some? ==> th.result.found == held)
          && (th.result.found.Some? ==> Kept(pre, st, o, birth, th.result.found.value, x)))
  }

  lemma OwnLookup(pre: seq<Text>, shared: iset<OwnerId>, st: State, t: Tid, a: Action, o: OwnerId, birth: nat, x: Text,
                  held: Option<Symbol>)
    requires Inv(pre, shared, st) && Enabled(pre, st, t, a) && Continues(a)
    requires Looking(pre, st, t, o, birth, x, held)
    ensures Looking(pre, Step(pre, st, t, a), t, o, birth, x, held)
  {
    hide HoldsOnlyLive, Counted, SoleExact, UnownedIsCounted, OwnerOk, Apart, CacheOk, ThreadsInv, Enroll, DecideIntern,
         Load, ReadSpellings, Disown, Clear;
    assert a.LockOwnedSet? || a.ReadOwned?;
    if a.ReadOwned? && held.Some? {
      assert TextOf(pre, st.table, held.value) == Some(x);
      assert Get(st.table, x) == held;
    }
  }

  lemma LookingGoesOn(pre: seq<Text>, shared: iset<OwnerId>, st: State, u: Tid, a: Action, t: Tid, o: OwnerId,
                      birth: nat, x: Text, held: Option<Symbol>)
    requires Inv(pre, shared, st) && KeepsTo(shared, st) && Enabled(pre, st, u, a) && (u == t ==> Continues(a))
    requires Looking(pre, st, t, o, birth, x, held)
    ensures Looking(pre, Step(pre, st, u, a), t, o, birth, x, held)
  {
    hide Step, Enabled, Inv;
    if u == t {
      OwnLookup(pre, shared, st, t, a, o, birth, x, held);
    } else {
      OthersStay(pre, st, u, a, t);
      GrowsOlder(pre, st, u, a, birth);
      StepKeeps(pre, shared, st, u, a);
      StackIsOpen(pre, shared, Step(pre, st, u, a), t, o);
      StaysIncarnate(pre, shared, st, u, a, o, birth);
      if held.Some? {
        KeptOn(pre, shared, st, u, a, o, birth, held.value, x);
      }
      if st.threads[t].pc.Idle? && st.threads[t].result.found.Some? {
        KeptOn(pre, shared, st, u, a, o, birth, st.threads[t].result.found.value, x);
      }
    }
  }

  lemma StackIsOpen(pre: seq<Text>, shared: iset<OwnerId>, st: State, t: Tid, o: OwnerId)
    requires Inv(pre, shared, st) && t in st.threads && o in st.threads[t].stack
    ensures OpenOwner(st, o)
  {
    assert ThreadOk(pre, shared, st, st.threads[t]);
  }

  lemma {:induction false} LookingRuns(pre: seq<Text>, shared: iset<OwnerId>, st: State, run: seq<Label>, t: Tid,
                                       o: OwnerId, birth: nat, x: Text, held: Option<Symbol>)
    requires Inv(pre, shared, st) && Possible(pre, st, run) && RunKeepsTo(pre, shared, st, run) && GoesOn(run, t)
    requires Looking(pre, st, t, o, birth, x, held)
    ensures Looking(pre, After(pre, st, run), t, o, birth, x, held)
    decreases |run|
  {
    if run != [] {
      hide Step, Enabled, Inv, Looking;
      var (u, a) := run[0];
      StepKeeps(pre, shared, st, u, a);
      LookingGoesOn(pre, shared, st, u, a, t, o, birth, x, held);
      assert GoesOn(run[1..], t);
      LookingRuns(pre, shared, Step(pre, st, u, a), run[1..], t, o, birth, x, held);
    }
  }

  lemma BeginsLooking(pre: seq<Text>, shared: iset<OwnerId>, st: State, t: Tid, o: OwnerId, x: Text,
                      held: Option<Symbol>)
    requires Inv(pre, shared, st) && Enabled(pre, st, t, StartLookupOwned(x)) && Active(st.threads[t]) == Some(o)
    requires x !in pre
    requires held.Some? ==> o in st.owners && held.value in st.owners[o].symbols
                            && TextOf(pre, st.table, held.value) == Some(x)
    ensures o in st.owners
    ensures Looking(pre, Step(pre, st, t, StartLookupOwned(x)), t, o, st.owners[o].birth, x, held)
  {
    assert o in st.threads[t].stack;
    StackIsOpen(pre, shared, st, t, o);
    assert OwnerOk(pre, shared, st, o);
  }

  /** `Name::lookup_owned`, as a whole. A preloaded text gives its symbol; any other gives nothing without
      an active owner, and otherwise a name the owner retains under the text: the one it retained when it
      was asked for, if there was one. */
  lemma LookupIsRight(pre: seq<Text>, shared: iset<OwnerId>, before: seq<Label>, t: Tid, x: Text, during: seq<Label>)
    requires Distinct(pre) && Request(pre, shared, before, t, StartLookupOwned(x), during)
    requires Ended(pre, shared, before, t, StartLookupOwned(x), during).threads[t].pc.Idle?
    ensures var asked := Asked(pre, shared, before, t, StartLookupOwned(x), during);
            var st := Ended(pre, shared, before, t, StartLookupOwned(x), during);
            var owner, r := Active(asked.threads[t]), st.threads[t].result;
            && r.Owned? && r.text == x
            && (x in pre ==> r.found.Some? && r.found.value < |pre| && pre[r.found.value] == x)
            && (x !in pre && owner.None? ==> r.found.None?)
            && (x !in pre && owner.Some? ==>
                  && owner.value in asked.owners && owner.value in st.owners
                  && (r.found.Some? ==> TextOf(pre, st.table, r.found.value) == Some(x)
                                        && r.found.value in st.owners[owner.value].symbols)
                  && forall s: Symbol ::
                       TextOf(pre, asked.table, s) == Some(x) && s in asked.owners[owner.value].symbols ==>
                         r.found == Some(s))
  {
    hide Possible, RunKeepsTo, Inv, Looking;
    var a := StartLookupOwned(x);
    RequestInv(pre, shared, before, t, a, during);
    var st0, st := Asked(pre, shared, before, t, a, during), Ended(pre, shared, before, t, a, during);
    var st1, owner := Step(pre, st0, t, a), Active(st0.threads[t]);
    ThreadStays(pre, st1, during, t);
    if x !in pre && owner.Some? {
      var o := owner.value;
      BeginsLooking(pre, shared, st0, t, o, x, None);
      LookingRuns(pre, shared, st1, during, t, o, st0.owners[o].birth, x, None);
      EndsLooking(pre, st, t, o, st0.owners[o].birth, x, None);
      forall s: Symbol | TextOf(pre, st0.table, s) == Some(x) && s in st0.owners[o].symbols
        ensures st.threads[t].result.found == Some(s)
      {
        BeginsLooking(pre, shared, st0, t, o, x, Some(s));
        LookingRuns(pre, shared, st1, during, t, o, st0.owners[o].birth, x, Some(s));
        EndsLooking(pre, st, t, o, st0.owners[o].birth, x, Some(s));
      }
    }
  }

  lemma EndsLooking(pre: seq<Text>, st: State, t: Tid, o: OwnerId, birth: nat, x: Text, held: Option<Symbol>)
    requires Looking(pre, st, t, o, birth, x, held) && st.threads[t].pc.Idle?
    ensures o in st.owners && st.threads[t].result.Owned? && st.threads[t].result.text == x
    ensures var found := st.threads[t].result.found;
            && (held.Some? ==> found == held)
            && (found.Some? ==> TextOf(pre, st.table, found.value) == Some(x) && found.value in st.owners[o].symbols)
  {
  }

  // ----- Reading spellings -----

  /** A reading of some symbols as it stands. */
  ghost predicate Reading(pre: seq<Text>, st: State, t: Tid, symbols: seq<Symbol>) {
    && t in st.threads
    && var th := st.threads[t];
    && (th.pc.Resolving? || th.pc.WantLoad? || th.pc.Idle?)
    && (th.pc.Resolving? || th.pc.WantLoad? ==> th.pc.symbols == symbols)
    && (th.pc.Idle? ==>
          && th.result.Spellings? && th.result.symbols == symbols && |th.result.texts| == |symbols|
          && forall i :: 0 <= i < |symbols| && IsPreloaded(pre, symbols[i]) ==> th.result.texts[i] == pre[symbols[i]])
  }

  /** And the `i`-th of them is held by an incarnation of `o` under `x`. */
  ghost predicate ReadingHeld(pre: seq<Text>, st: State, t: Tid, symbols: seq<Symbol>, o: OwnerId, birth: nat, i: nat,
                              x: Text)
  {
    && Reading(pre, st, t, symbols) && i < |symbols| && birth < st.clock && Kept(pre, st, o, birth, symbols[i], x)
    && (st.threads[t].pc.Idle? && Incarnate(st, o, birth) ==> st.threads[t].result.texts[i] == x)
  }

  lemma OwnReading(pre: seq<Text>, shared: iset<OwnerId>, st: State, t: Tid, a: Action, symbols: seq<Symbol>)
    requires Inv(pre, shared, st) && Enabled(pre, st, t, a) && Continues(a) && Reading(pre, st, t, symbols)
    ensures Reading(pre, Step(pre, st, t, a), t, symbols)
    ensures var st' := Step(pre, st, t, a);
            && st'.table == st.table && st'.owners == st.owners && st'.clock == st.clock
            && (st'.threads[t].pc.Idle? ==>
                  forall i :: 0 <= i < |symbols| ==>
                    st'.threads[t].result.texts[i] == Resolve(pre, st.table, symbols[i]))
  {
    hide Inv, Load, AllShared;
    assert a.CheckCache? || a.LoadCache?;
    if Answers(pre, st, t, a) {
      AnswerIsCurrent(pre, shared, st, t, a);
    }
  }

  lemma ReadingGoesOn(pre: seq<Text>, shared: iset<OwnerId>, st: State, u: Tid, a: Action, t: Tid,
                      symbols: seq<Symbol>, o: OwnerId, birth: nat, i: nat, x: Text)
    requires Inv(pre, shared, st) && Enabled(pre, st, u, a) && (u == t ==> Continues(a))
    requires Reading(pre, st, t, symbols)
    ensures Reading(pre, Step(pre, st, u, a), t, symbols)
    ensures ReadingHeld(pre, st, t, symbols, o, birth, i, x) ==>
              ReadingHeld(pre, Step(pre, st, u, a), t, symbols, o, birth, i, x)
  {
    hide Step, Enabled, Inv;
    if u == t {
      OwnReading(pre, shared, st, t, a, symbols);
    } else {
      OthersStay(pre, st, u, a, t);
    }
    if ReadingHeld(pre, st, t, symbols, o, birth, i, x) {
      KeptOn(pre, shared, st, u, a, o, birth, symbols[i], x);
      if Incarnate(Step(pre, st, u, a), o, birth) && !Incarnate(st, o, birth) {
        GoneStep(pre, st, u, a, o, birth);
      }
    }
  }

  lemma {:induction false} ReadingRuns(pre: seq<Text>, shared: iset<OwnerId>, st: State, run: seq<Label>, t: Tid,
                                       symbols: seq<Symbol>, o: OwnerId, birth: nat, i: nat, x: Text)
    requires Inv(pre, shared, st) && Possible(pre, st, run) && RunKeepsTo(pre, shared, st, run) && GoesOn(run, t)
    requires Reading(pre, st, t, symbols)
    ensures Reading(pre, After(pre, st, run), t, symbols)
    ensures ReadingHeld(pre, st, t, symbols, o, birth, i, x) ==>
              ReadingHeld(pre, After(pre, st, run), t, symbols, o, birth, i, x)
    decreases |run|
  {
    if run != [] {
      hide Step, Enabled, Inv, Reading, ReadingHeld;
      var (u, a) := run[0];
      StepKeeps(pre, shared, st, u, a);
      ReadingGoesOn(pre, shared, st, u, a, t, symbols, o, birth, i, x);
      assert GoesOn(run[1..], t);
      ReadingRuns(pre, shared, Step(pre, st, u, a), run[1..], t, symbols, o, birth, i, x);
    }
  }

  lemma BeginsReading(pre: seq<Text>, shared: iset<OwnerId>, st: State, t: Tid, symbols: seq<Symbol>, o: OwnerId,
                      i: nat)
    requires Inv(pre, shared, st) && Enabled(pre, st, t, StartResolve(symbols))
    ensures Reading(pre, Step(pre, st, t, StartResolve(symbols)), t, symbols)
    ensures OpenOwner(st, o) && i < |symbols| && symbols[i] in st.owners[o].symbols ==>
              && IsLive(pre, st.table, symbols[i])
              && ReadingHeld(pre, Step(pre, st, t, StartResolve(symbols)), t, symbols, o, st.owners[o].birth, i,
                             EntryOf(pre, st.table, symbols[i]).text)
  {
    if OpenOwner(st, o) {
      assert OwnerOk(pre, shared, st, o);
    }
  }

  /** A reading of spellings, as a whole: one text for each symbol asked for, a preloaded name's own, and
      for a name that some owner held when it was asked for and still holds, that name's. */
  lemma ReadingIsRight(pre: seq<Text>, shared: iset<OwnerId>, before: seq<Label>, t: Tid, symbols: seq<Symbol>,
                       during: seq<Label>)
    requires Distinct(pre) && Request(pre, shared, before, t, StartResolve(symbols), during)
    requires Ended(pre, shared, before, t, StartResolve(symbols), during).threads[t].pc.Idle?
    ensures var asked := Asked(pre, shared, before, t, StartResolve(symbols), during);
            var st := Ended(pre, shared, before, t, StartResolve(symbols), during);
            var r := st.threads[t].result;
            && r.Spellings? && r.symbols == symbols && |r.texts| == |symbols|
            && (forall i :: 0 <= i < |symbols| && symbols[i] < |pre| ==> r.texts[i] == pre[symbols[i]])
            && forall i, o :: 0 <= i < |symbols| && OpenOwner(asked, o) && symbols[i] in asked.owners[o].symbols
                              && Incarnate(st, o, asked.owners[o].birth) ==>
                                Some(r.texts[i]) == TextOf(pre, asked.table, symbols[i])
  {
    hide Possible, RunKeepsTo, Inv, Reading, ReadingHeld, Step, Enabled;
    var a := StartResolve(symbols);
    RequestInv(pre, shared, before, t, a, during);
    var st0, st := Asked(pre, shared, before, t, a, during), Ended(pre, shared, before, t, a, during);
    BeginsReading(pre, shared, st0, t, symbols, 0, 0);
    ReadingRuns(pre, shared, Step(pre, st0, t, a), during, t, symbols, 0, 0, 0, []);
    EndsReading(pre, st, t, symbols);
    forall i, o | 0 <= i < |symbols| && OpenOwner(st0, o) && symbols[i] in st0.owners[o].symbols
                  && Incarnate(st, o, st0.owners[o].birth)
      ensures Some(st.threads[t].result.texts[i]) == TextOf(pre, st0.table, symbols[i])
    {
      BeginsReading(pre, shared, st0, t, symbols, o, i);
      var x, birth := EntryOf(pre, st0.table, symbols[i]).text, st0.owners[o].birth;
      ReadingRuns(pre, shared, Step(pre, st0, t, a), during, t, symbols, o, birth, i, x);
      EndsReadingHeld(pre, st, t, symbols, o, birth, i, x);
    }
  }

  lemma EndsReading(pre: seq<Text>, st: State, t: Tid, symbols: seq<Symbol>)
    requires Reading(pre, st, t, symbols) && st.threads[t].pc.Idle?
    ensures var r := st.threads[t].result;
            && r.Spellings? && r.symbols == symbols && |r.texts| == |symbols|
            && forall i :: 0 <= i < |symbols| && symbols[i] < |pre| ==> r.texts[i] == pre[symbols[i]]
  {
  }

  lemma EndsReadingHeld(pre: seq<Text>, st: State, t: Tid, symbols: seq<Symbol>, o: OwnerId, birth: nat, i: nat,
                        x: Text)
    requires ReadingHeld(pre, st, t, symbols, o, birth, i, x) && st.threads[t].pc.Idle? && Incarnate(st, o, birth)
    ensures st.threads[t].result.Spellings? && i < |st.threads[t].result.texts| && st.threads[t].result.texts[i] == x
  {
  }
}
