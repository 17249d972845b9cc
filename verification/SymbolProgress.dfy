/** No deadlock, and no operation that goes on forever. */
module SymbolProgress {
  import opened SymbolTable
  import opened SymbolSystem
  import opened SymbolInvariant
  import opened SymbolTheorems

  /** Enabled under any lock policy: a lock the step takes is not held by anybody, so neither
      waiting writers nor waiting readers are a reason to refuse it. */
  predicate SurelyEnabled(pre: seq<Text>, st: State, t: Tid, a: Action) {
    && Continues(a) && Enabled(pre, st, t, a)
    && (a.ReadOwner? || a.LockOwnedSet? ==> OwnerFree(st, Active(st.threads[t]).value))
  }

  /** With every lock free, any thread can go on. */
  lemma ThreadCanStep(pre: seq<Text>, st: State, t: Tid) returns (a: Action)
    requires Inv(pre, Everyone(), st) && t in st.threads && !st.threads[t].pc.Idle?
    requires TableFree(st) && forall o :: OwnerFree(st, o)
    ensures SurelyEnabled(pre, st, t, a)
  {
    var th := st.threads[t];
    assert ThreadOk(pre, Everyone(), st, th);
    var o := if th.stack == [] then 0 else Active(th).value;
    assert th.stack != [] ==> o in th.stack;
    assert OwnerFree(st, o);
    if th.pc.WantOwner? {
      assert OwnerFree(st, th.pc.owner);
      return LockOwner;
    }
    a := if th.pc.Lookup? then ReadTable
         else if th.pc.Looked? then Decide
         else if th.pc.CheckExisting? then ReadOwner
         else if th.pc.OwnedWantOwner? then LockOwnedSet
         else if th.pc.Resolving? then CheckCache
         else if th.pc.WantLoad? then LoadCache
         else LockTable;
    assert !HoldsOwnerRead(th, o);
    assert th.pc.WantTable? || th.pc.Interned? ==> !OwnerFree(st, th.pc.owner);
  }

  /** In every reachable state with an unfinished operation some thread can take a step of its
      operation. The interner's holder waits for nothing; with the interner free, the holder
      of an owner's lock waits for nothing; with both free, everybody can go on. */
  lemma NeverDeadlocked(pre: seq<Text>, run: seq<Label>)
    requires Distinct(pre) && Possible(pre, Initial(pre), run)
    ensures var st := After(pre, Initial(pre), run);
            (exists t :: t in st.threads && !st.threads[t].pc.Idle?) ==>
              exists t, a :: SurelyEnabled(pre, st, t, a)
  {
    ReachableInv(pre, run);
    var st := After(pre, Initial(pre), run);
    if t :| t in st.threads && !st.threads[t].pc.Idle? {
      var a := SomeoneCanStep(pre, st, t);
    }
  }

  lemma SomeoneCanStep(pre: seq<Text>, st: State, t: Tid) returns (a: (Tid, Action))
    requires Inv(pre, Everyone(), st) && t in st.threads && !st.threads[t].pc.Idle?
    ensures SurelyEnabled(pre, st, a.0, a.1)
  {
    var busy := t;
    if !TableFree(st) {
      busy :| busy in st.threads && st.threads[busy].pc.Closing?;
      var x := CloserCanStep(pre, st, busy);
      return (busy, x);
    }
    if o :| !OwnerFree(st, o) {
      busy :| busy in st.threads && (HoldsOwnerWrite(st.threads[busy], o) || HoldsOwnerRead(st.threads[busy], o));
      var x := OwnerHolderCanStep(pre, st, busy);
      return (busy, x);
    }
    var x := ThreadCanStep(pre, st, busy);
    return (busy, x);
  }

  lemma CloserCanStep(pre: seq<Text>, st: State, t: Tid) returns (a: Action)
    requires Inv(pre, Everyone(), st) && t in st.threads && st.threads[t].pc.Closing?
    ensures SurelyEnabled(pre, st, t, a)
  {
    var o, counted := st.threads[t].pc.owner, st.threads[t].pc.counted;
    assert ThreadOk(pre, Everyone(), st, st.threads[t]);
    if counted.Some? {
      a := ClearSlot;
    } else if st.owners[o].symbols == {} {
      a := FinishClose;
    } else {
      var s :| s in st.owners[o].symbols;
      assert o in Holders(st.owners, s);
      assert |Holders(st.owners, s)| > 0;
      a := CountRelease(s);
    }
  }

  lemma OwnerHolderCanStep(pre: seq<Text>, st: State, t: Tid) returns (a: Action)
    requires Inv(pre, Everyone(), st) && t in st.threads && TableFree(st)
    requires st.threads[t].pc.WantTable? || st.threads[t].pc.Interned? || st.threads[t].pc.OwnedWantTable?
    ensures SurelyEnabled(pre, st, t, a)
  {
    var th := st.threads[t];
    assert ThreadOk(pre, Everyone(), st, th);
    assert th.stack != [] ==> Active(th).value in th.stack;
    a := if th.pc.WantTable? then InternLocked else if th.pc.Interned? then UnlockOwner else ReadOwned;
  }

  // ----- Operations finish -----

  /** An upper bound on the steps a thread's operation still needs. */
  function Work(st: State, t: Tid): nat {
    if t !in st.threads then 0
    else match st.threads[t].pc
      case Idle => 0
      case Lookup(_) => 6
      case Looked(_, _) => 5
      case CheckExisting(_, _) => 4
      case WantOwner(_, _) => 3
      case WantTable(_, _) => 2
      case Interned(_, _, _) => 1
      case OwnedWantOwner(_) => 2
      case OwnedWantTable(_) => 1
      case Resolving(_) => 2
      case WantLoad(_) => 1
      case WantClose(o) => 2 + if o in st.owners then 2 * |st.owners[o].symbols| else 0
      case Closing(o, counted) =>
        (if counted.Some? then 2 else 1) + if o in st.owners then 2 * |st.owners[o].symbols| else 0
  }

  /** Two threads neither close one owner nor hold the interner together. */
  lemma ClosersApart(pre: seq<Text>, st: State, t: Tid, u: Tid, o: OwnerId)
    requires Inv(pre, Everyone(), st) && t in st.threads && u in st.threads && u != t && Closes(st.threads[u].pc, o)
    ensures o in st.owners && st.owners[o].closing && !Closes(st.threads[t].pc, o)
    ensures st.threads[t].pc.WantTable? ==> st.threads[t].pc.owner != o
  {
    var th, tu := st.threads[t], st.threads[u];
    assert ThreadOk(pre, Everyone(), st, th) && ThreadOk(pre, Everyone(), st, tu);
    assert Apart(th, tu) && Apart(tu, th);
  }

  /** A continuing step changes its own thread's record, and the symbols of no owner but its own. */
  lemma ContinuingWrites(pre: seq<Text>, st: State, t: Tid, a: Action)
    requires Continues(a) && Enabled(pre, st, t, a)
    ensures t in st.threads
    ensures var (pc, st') := (st.threads[t].pc, Step(pre, st, t, a));
            && t in st'.threads && st'.threads == st.threads[t := st'.threads[t]]
            && forall o :: o in st.owners && !Closes(pc, o) && !(pc.WantTable? && pc.owner == o) ==>
                             o in st'.owners && st'.owners[o].symbols == st.owners[o].symbols
  {
    hide Enroll, Disown, Clear, Load, ReadSpellings;
  }

  /** Any other operation has as much work left as before. */
  lemma OthersKeepTheirWork(pre: seq<Text>, st: State, t: Tid, a: Action, u: Tid)
    requires Inv(pre, Everyone(), st) && Continues(a) && Enabled(pre, st, t, a) && u != t
    ensures Work(Step(pre, st, t, a), u) == Work(st, u)
  {
    hide Step, Enabled, Inv, Continues;
    ContinuingWrites(pre, st, t, a);
    if u in st.threads && (st.threads[u].pc.WantClose? || st.threads[u].pc.Closing?) {
      ClosersApart(pre, st, t, u, st.threads[u].pc.owner);
    }
  }

  /** Counting a release takes a symbol off the list. */
  lemma CountingShrinksWork(pre: seq<Text>, st: State, t: Tid, s: Symbol)
    requires Enabled(pre, st, t, CountRelease(s))
    ensures Work(Step(pre, st, t, CountRelease(s)), t) < Work(st, t)
  {
    hide Step, Enabled, Disown;
    CountReleaseWrites(pre, st, t, s);
    var o := st.threads[t].pc.owner;
    assert |st.owners[o].symbols - {s}| == |st.owners[o].symbols| - 1;
  }

  /** The other closing steps take the lock, a counted slot, or the owner itself off it. */
  lemma ClosingShrinksWork(pre: seq<Text>, st: State, t: Tid, a: Action)
    requires Inv(pre, Everyone(), st) && Enabled(pre, st, t, a) && (a.LockTable? || a.ClearSlot? || a.FinishClose?)
    ensures Work(Step(pre, st, t, a), t) < Work(st, t)
  {
    hide Inv;
  }

  /** Interning and reading count down. */
  lemma OperatingShrinksWork(pre: seq<Text>, st: State, t: Tid, a: Action)
    requires Continues(a) && Enabled(pre, st, t, a)
    requires !a.LockTable? && !a.CountRelease? && !a.ClearSlot? && !a.FinishClose?
    ensures Work(Step(pre, st, t, a), t) < Work(st, t)
  {
    hide Enroll, Load, ReadSpellings;
  }

  /** A step of an operation brings it nearer to its end and adds no work to any other. */
  lemma StepShrinksWork(pre: seq<Text>, st: State, t: Tid, a: Action)
    requires Inv(pre, Everyone(), st) && Continues(a) && Enabled(pre, st, t, a)
    ensures var st' := Step(pre, st, t, a);
            && st'.threads.Keys == st.threads.Keys
            && Work(st', t) < Work(st, t)
            && forall u :: u != t ==> Work(st', u) == Work(st, u)
  {
    hide *;
    ContinuingWrites(pre, st, t, a);
    if a.CountRelease? {
      CountingShrinksWork(pre, st, t, a.symbol);
    } else if a.LockTable? || a.ClearSlot? || a.FinishClose? {
      ClosingShrinksWork(pre, st, t, a);
    } else {
      OperatingShrinksWork(pre, st, t, a);
    }
    forall u | u != t ensures Work(Step(pre, st, t, a), u) == Work(st, u) {
      OthersKeepTheirWork(pre, st, t, a, u);
    }
  }

  ghost function TotalWork(st: State, ts: set<Tid>): nat {
    if ts == {} then 0 else var t :| t in ts; Work(st, t) + TotalWork(st, ts - {t})
  }

  lemma {:induction false} TotalShrinks(st: State, st': State, ts: set<Tid>, t: Tid)
    requires forall u :: u in ts && u != t ==> Work(st', u) == Work(st, u)
    requires t in ts ==> Work(st', t) < Work(st, t)
    ensures t in ts ==> TotalWork(st', ts) < TotalWork(st, ts)
    ensures t !in ts ==> TotalWork(st', ts) == TotalWork(st, ts)
  {
    if ts != {} {
      var u :| u in ts && TotalWork(st, ts) == Work(st, u) + TotalWork(st, ts - {u});
      WorkSplit(st', ts, u);
      TotalShrinks(st, st', ts - {u}, t);
    }
  }

  /** The total does not depend on the order of summation. */
  lemma {:induction false} WorkSplit(st: State, ts: set<Tid>, u: Tid)
    requires u in ts
    ensures TotalWork(st, ts) == Work(st, u) + TotalWork(st, ts - {u})
  {
    var x :| x in ts && TotalWork(st, ts) == Work(st, x) + TotalWork(st, ts - {x});
    if x != u {
      WorkSplit(st, ts - {x}, u);
      WorkSplit(st, ts - {u}, x);
      assert ts - {x} - {u} == ts - {u} - {x};
    }
  }

  /** However the threads are scheduled, the operations in progress end after at most this many
      steps. With `NeverDeadlocked`: if no new operation starts, all of them finish. */
  lemma {:induction false} OperationsFinish(pre: seq<Text>, st: State, run: seq<Label>)
    requires Inv(pre, Everyone(), st) && Possible(pre, st, run)
    requires forall i :: 0 <= i < |run| ==> Continues(run[i].1)
    ensures |run| <= TotalWork(st, st.threads.Keys)
    decreases |run|
  {
    if run != [] {
      var (t, a) := run[0];
      var st' := Step(pre, st, t, a);
      StepShrinksWork(pre, st, t, a);
      TotalShrinks(st, st', st.threads.Keys, t);
      EveryRunKeepsToEveryone(pre, st, run);
      StepKeeps(pre, Everyone(), st, t, a);
      OperationsFinish(pre, st', run[1..]);
    }
  }
}
