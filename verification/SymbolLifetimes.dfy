/** How long owners live: as long as a handle or a guard of theirs does, and no longer. */
module SymbolLifetimes {
  import opened SymbolTable
  import opened SymbolSystem
  import opened SymbolInvariant
  import opened SymbolTheorems

  /** Some thread has entered the owner. */
  ghost predicate Entered(threads: map<Tid, Thread>, o: OwnerId) {
    exists u :: u in threads && o in threads[u].stack
  }

  ghost predicate BeingClosed(threads: map<Tid, Thread>, o: OwnerId) {
    exists u :: u in threads && Closes(threads[u].pc, o)
  }

  /** An open owner has a handle or a guard; a closing one a thread that closes it. */
  ghost predicate Tended(st: State, o: OwnerId)
    requires o in st.owners
  {
    if st.owners[o].closing then BeingClosed(st.threads, o) else st.owners[o].external > 0 || Entered(st.threads, o)
  }

  /** A handle that interning has borrowed is there. */
  ghost predicate BorrowsHandles(st: State, u: Tid)
    requires u in st.threads
  {
    forall o :: Borrows(st.threads[u], o) && o in st.owners ==> st.owners[o].external > 0
  }

  ghost predicate AllTended(st: State) {
    && (forall o :: o in st.owners ==> Tended(st, o))
    && (forall u :: u in st.threads ==> BorrowsHandles(st, u))
  }

  /** A step of `t` that adds and takes away no handle and no guard, and closes nothing. */
  ghost predicate KeepsHandles(st: State, st': State, t: Tid) {
    && st'.owners.Keys == st.owners.Keys
    && (forall o :: o in st.owners ==>
          st'.owners[o].external == st.owners[o].external && st'.owners[o].closing == st.owners[o].closing)
    && t in st.threads && t in st'.threads && st'.threads == st.threads[t := st'.threads[t]]
    && st'.threads[t].stack == st.threads[t].stack
    && (forall o :: Closes(st.threads[t].pc, o) ==> Closes(st'.threads[t].pc, o))
    && (forall o :: Borrows(st'.threads[t], o) ==> Borrows(st.threads[t], o) || HasHandle(st, t, o))
  }

  lemma HandlesKept(st: State, st': State, t: Tid)
    requires AllTended(st) && KeepsHandles(st, st', t)
    ensures AllTended(st')
  {
    forall o | o in st'.owners ensures Tended(st', o) {
      assert Tended(st, o);
      if Entered(st.threads, o) {
        var u :| u in st.threads && o in st.threads[u].stack;
        assert u in st'.threads && o in st'.threads[u].stack;
      }
      if BeingClosed(st.threads, o) {
        var u :| u in st.threads && Closes(st.threads[u].pc, o);
        assert u in st'.threads && Closes(st'.threads[u].pc, o);
      }
    }
    forall u | u in st'.threads ensures BorrowsHandles(st', u) {
      assert BorrowsHandles(st, if u == t then t else u);
    }
  }

  lemma DecisionKeepsHandles(pre: seq<Text>, st: State, t: Tid, a: Action)
    requires Enabled(pre, st, t, a) && (a.Decide? || a.ReadOwner?)
    requires Active(st.threads[t]).Some? ==> Active(st.threads[t]).value in st.threads[t].stack
    ensures KeepsHandles(st, Step(pre, st, t, a), t)
  {
  }

  lemma LaterStepKeepsHandles(pre: seq<Text>, st: State, t: Tid, a: Action)
    requires Enabled(pre, st, t, a) && Continues(a) && !a.Decide? && !a.ReadOwner? && !a.FinishClose?
    ensures KeepsHandles(st, Step(pre, st, t, a), t)
  {
    hide Enroll, Disown, Clear, Load, ReadSpellings, Active, DecideIntern;
  }

  lemma OperationKeepsHandles(pre: seq<Text>, st: State, t: Tid, a: Action)
    requires Enabled(pre, st, t, a) && Continues(a) && !a.FinishClose?
    ensures KeepsHandles(st, Step(pre, st, t, a), t)
  {
    hide Step, Enabled, KeepsHandles, Continues;
    if a.Decide? || a.ReadOwner? {
      ThreadIsThere(pre, st, t, a);
      DecisionKeepsHandles(pre, st, t, a);
    } else {
      LaterStepKeepsHandles(pre, st, t, a);
    }
  }

  lemma ThreadIsThere(pre: seq<Text>, st: State, t: Tid, a: Action)
    requires Enabled(pre, st, t, a) && !a.Spawn?
    ensures t in st.threads
  {
  }

  lemma StartKeepsHandles(pre: seq<Text>, st: State, t: Tid, a: Action)
    requires Enabled(pre, st, t, a) && !Continues(a)
    requires !a.Spawn? && !a.NewOwner? && !a.CloneHandle? && !a.DropHandle? && !a.Enter? && !a.Exit?
    ensures KeepsHandles(st, Step(pre, st, t, a), t)
  {
  }

  lemma SpawnTends(pre: seq<Text>, st: State, t: Tid)
    requires AllTended(st) && Enabled(pre, st, t, Spawn)
    ensures AllTended(Step(pre, st, t, Spawn))
  {
    var st' := Step(pre, st, t, Spawn);
    forall o | o in st'.owners ensures Tended(st', o) {
      assert Tended(st, o);
      if Entered(st.threads, o) {
        var u :| u in st.threads && o in st.threads[u].stack;
        assert u in st'.threads && o in st'.threads[u].stack;
      }
      if BeingClosed(st.threads, o) {
        var u :| u in st.threads && Closes(st.threads[u].pc, o);
        assert u in st'.threads && Closes(st'.threads[u].pc, o);
      }
    }
    forall u | u in st'.threads ensures BorrowsHandles(st', u) {
      assert u != t ==> BorrowsHandles(st, u);
    }
  }

  lemma EnterTends(pre: seq<Text>, st: State, t: Tid, o: OwnerId)
    requires AllTended(st) && Enabled(pre, st, t, Enter(o))
    ensures AllTended(Step(pre, st, t, Enter(o)))
  {
    var st' := Step(pre, st, t, Enter(o));
    forall p | p in st'.owners ensures Tended(st', p) {
      assert Tended(st, p);
      if Entered(st.threads, p) {
        var u :| u in st.threads && p in st.threads[u].stack;
        assert u in st'.threads && p in st'.threads[u].stack;
      }
      if BeingClosed(st.threads, p) {
        var u :| u in st.threads && Closes(st.threads[u].pc, p);
        assert u in st'.threads && Closes(st'.threads[u].pc, p);
      }
    }
    forall u | u in st'.threads ensures BorrowsHandles(st', u) {
      assert BorrowsHandles(st, u);
    }
  }

  lemma MoreHandlesTend(pre: seq<Text>, shared: iset<OwnerId>, st: State, t: Tid, a: Action)
    requires Inv(pre, shared, st) && AllTended(st) && Enabled(pre, st, t, a) && (a.NewOwner? || a.CloneHandle?)
    ensures AllTended(Step(pre, st, t, a))
  {
    hide MemoryInv;
    var st' := Step(pre, st, t, a);
    forall p | p in st'.owners ensures Tended(st', p) {
      assert p in st.owners ==> Tended(st, p);
    }
    forall u | u in st'.threads ensures BorrowsHandles(st', u) {
      assert BorrowsHandles(st, u);
    }
  }

  /** After a handle or a guard of `o` went away: what is left is tended, or `o` begins to close. */
  lemma CloseTends(st: State, t: Tid, o: OwnerId)
    requires t in st.threads && o in st.owners && !st.owners[o].closing && st.threads[t].pc.Idle?
    requires forall p :: p in st.owners && p != o ==> Tended(st, p)
    requires forall u :: u in st.threads ==> BorrowsHandles(st, u)
    ensures AllTended(CloseIfLast(st, t, o))
  {
    var st' := CloseIfLast(st, t, o);
    if st.owners[o].external == 0 && Unused(st.threads, o) {
      assert Closes(st'.threads[t].pc, o);
      forall p | p in st'.owners ensures Tended(st', p) {
        if p != o {
          if Entered(st.threads, p) {
            var u :| u in st.threads && p in st.threads[u].stack;
            assert u in st'.threads && p in st'.threads[u].stack;
          }
          if BeingClosed(st.threads, p) {
            var u :| u in st.threads && Closes(st.threads[u].pc, p);
            assert u in st'.threads && Closes(st'.threads[u].pc, p);
          }
        }
      }
      forall u | u in st'.threads ensures BorrowsHandles(st', u) {
        assert BorrowsHandles(st, u);
      }
    } else if st.owners[o].external == 0 {
      var u :| u in st.threads && Uses(st.threads[u], o);
      assert BorrowsHandles(st, u);
      assert o in st.threads[u].stack;
    }
  }

  lemma DropTends(pre: seq<Text>, shared: iset<OwnerId>, st: State, t: Tid, o: OwnerId)
    requires Inv(pre, shared, st) && AllTended(st) && Enabled(pre, st, t, DropHandle(o))
    ensures AllTended(Step(pre, st, t, DropHandle(o)))
  {
    assert OwnerOk(pre, shared, st, o);
    var ow := st.owners[o];
    var dropped := SetOwner(st, o, ow.(external := ow.external - 1));
    forall p | p in dropped.owners && p != o ensures Tended(dropped, p) {
      assert Tended(st, p);
    }
    forall u | u in dropped.threads ensures BorrowsHandles(dropped, u) {
      assert BorrowsHandles(st, u);
    }
    CloseTends(dropped, t, o);
  }

  lemma ExitTends(pre: seq<Text>, shared: iset<OwnerId>, st: State, t: Tid)
    requires Inv(pre, shared, st) && AllTended(st) && Enabled(pre, st, t, Exit)
    ensures AllTended(Step(pre, st, t, Exit))
  {
    hide MemoryInv;
    var th := st.threads[t];
    var o := Active(th).value;
    assert ThreadOk(pre, shared, st, th) && o in th.stack;
    var popped := SetThread(st, t, th.(stack := th.stack[..|th.stack| - 1]));
    forall p | p in popped.owners && p != o ensures Tended(popped, p) {
      assert Tended(st, p);
      if Entered(st.threads, p) {
        var u :| u in st.threads && p in st.threads[u].stack;
        assert u in popped.threads && p in popped.threads[u].stack;
      }
      if BeingClosed(st.threads, p) {
        var u :| u in st.threads && Closes(st.threads[u].pc, p);
        assert u in popped.threads && Closes(popped.threads[u].pc, p);
      }
    }
    forall u | u in popped.threads ensures BorrowsHandles(popped, u) {
      assert BorrowsHandles(st, u);
    }
    CloseTends(popped, t, o);
  }

  lemma FinishTends(pre: seq<Text>, shared: iset<OwnerId>, st: State, t: Tid)
    requires Inv(pre, shared, st) && AllTended(st) && Enabled(pre, st, t, FinishClose)
    ensures AllTended(Step(pre, st, t, FinishClose))
  {
    hide MemoryInv;
    var st' := Step(pre, st, t, FinishClose);
    forall p | p in st'.owners ensures Tended(st', p) {
      assert Tended(st, p);
      if Entered(st.threads, p) {
        var u :| u in st.threads && p in st.threads[u].stack;
        assert u in st'.threads && p in st'.threads[u].stack;
      }
      if BeingClosed(st.threads, p) {
        var u :| u in st.threads && Closes(st.threads[u].pc, p);
        assert u in st'.threads && Closes(st'.threads[u].pc, p);
      }
    }
    forall u | u in st'.threads ensures BorrowsHandles(st', u) {
      assert BorrowsHandles(st, u);
    }
  }

  /** Every step keeps every owner tended. */
  lemma StepTends(pre: seq<Text>, shared: iset<OwnerId>, st: State, t: Tid, a: Action)
    requires Inv(pre, shared, st) && AllTended(st) && Enabled(pre, st, t, a)
    ensures AllTended(Step(pre, st, t, a))
  {
    hide *;
    match a
    case Spawn => SpawnTends(pre, st, t);
    case NewOwner(o) => MoreHandlesTend(pre, shared, st, t, a);
    case CloneHandle(o) => MoreHandlesTend(pre, shared, st, t, a);
    case DropHandle(o) => DropTends(pre, shared, st, t, o);
    case Enter(o) => EnterTends(pre, st, t, o);
    case Exit => ExitTends(pre, shared, st, t);
    case FinishClose => FinishTends(pre, shared, st, t);
    case _ =>
      if Continues(a) {
        OperationKeepsHandles(pre, st, t, a);
      } else {
        StartKeepsHandles(pre, st, t, a);
      }
      HandlesKept(st, Step(pre, st, t, a), t);
  }

  lemma {:induction false} RunTends(pre: seq<Text>, st: State, run: seq<Label>)
    requires Inv(pre, Everyone(), st) && AllTended(st) && Possible(pre, st, run)
    ensures AllTended(After(pre, st, run))
    decreases |run|
  {
    if run != [] {
      hide Step, Enabled, Inv, AllTended;
      var (t, a) := run[0];
      EveryRunKeepsToEveryone(pre, st, run);
      StepKeeps(pre, Everyone(), st, t, a);
      StepTends(pre, Everyone(), st, t, a);
      RunTends(pre, Step(pre, st, t, a), run[1..]);
    }
  }

  /** Nothing leaks. In every reachable state an owner has a handle or a guard, or is being released;
      and with all handles and guards gone and all operations over, no owner and no dynamic name is left. */
  lemma NothingLeaks(pre: seq<Text>, run: seq<Label>)
    requires Distinct(pre) && Possible(pre, Initial(pre), run)
    ensures var st := After(pre, Initial(pre), run);
            && (forall o :: o in st.owners ==>
                  || st.owners[o].external > 0
                  || exists u :: u in st.threads && (o in st.threads[u].stack || Closes(st.threads[u].pc, o)))
            && ((forall o :: o in st.owners ==> st.owners[o].external == 0)
                && (forall u :: u in st.threads ==> st.threads[u].stack == [] && st.threads[u].pc.Idle?) ==>
                  && st.owners == map[]
                  && forall s: Symbol :: TextOf(pre, st.table, s).Some? ==> IsPreloaded(pre, s))
  {
    InitialInv(pre, Everyone());
    RunTends(pre, Initial(pre), run);
    BookkeepingIsExact(pre, run);
    var st := After(pre, Initial(pre), run);
    forall o | o in st.owners
      ensures || st.owners[o].external > 0
              || exists u :: u in st.threads && (o in st.threads[u].stack || Closes(st.threads[u].pc, o))
    {
      assert Tended(st, o);
    }
    if st.owners == map[] {
      assert forall s: Symbol :: Holders(st.owners, s) == {};
    }
  }

  // ----- Counting handles -----

  /** Handles made and dropped in a run. */
  function Net(run: seq<Label>, o: OwnerId): int {
    if run == [] then 0
    else (if run[0].1 == CloneHandle(o) then 1 else if run[0].1 == DropHandle(o) then -1 else 0) + Net(run[1..], o)
  }

  /** The handles of an incarnation of `o`, and whether it is open. */
  ghost predicate Handled(st: State, o: OwnerId, birth: nat, handles: int) {
    Incarnate(st, o, birth) && st.owners[o].external == handles
  }

  lemma StartCounts(pre: seq<Text>, st: State, t: Tid, a: Action, o: OwnerId, birth: nat, handles: int)
    requires Enabled(pre, st, t, a) && !Continues(a) && Handled(st, o, birth, handles)
    requires handles + Net([(t, a)], o) > 0
    ensures Handled(Step(pre, st, t, a), o, birth, handles + Net([(t, a)], o))
  {
    assert [(t, a)][1..] == [];
  }

  lemma OperationCounts(pre: seq<Text>, shared: iset<OwnerId>, st: State, t: Tid, a: Action, o: OwnerId, birth: nat,
                        handles: int)
    requires Inv(pre, shared, st) && Enabled(pre, st, t, a) && Continues(a) && Handled(st, o, birth, handles)
    ensures Handled(Step(pre, st, t, a), o, birth, handles + Net([(t, a)], o))
  {
    hide Enroll, Disown, Clear, Load, ReadSpellings, MemoryInv;
    assert [(t, a)][1..] == [];
    if a.FinishClose? {
      CloserReady(pre, shared, st, t);
    }
  }

  /** An owner is not released while a handle is left: as long as a run never drops more handles than
      there are, the owner stays open, with exactly the handles that were made and not dropped. */
  lemma {:induction false} HandledOwnersLive(pre: seq<Text>, st: State, run: seq<Label>, o: OwnerId, birth: nat,
                                             handles: int)
    requires Inv(pre, Everyone(), st) && Possible(pre, st, run) && Handled(st, o, birth, handles)
    requires forall i :: 0 <= i <= |run| ==> handles + Net(run[..i], o) > 0
    ensures Handled(After(pre, st, run), o, birth, handles + Net(run, o))
    decreases |run|
  {
    if run != [] {
      hide Step, Enabled, Inv, Handled;
      var (t, a) := run[0];
      EveryRunKeepsToEveryone(pre, st, run);
      StepKeeps(pre, Everyone(), st, t, a);
      var now := handles + Net([(t, a)], o);
      assert run[..1] == [(t, a)];
      if Continues(a) {
        OperationCounts(pre, Everyone(), st, t, a, o, birth, handles);
      } else {
        StartCounts(pre, st, t, a, o, birth, handles);
      }
      forall i | 0 <= i <= |run[1..]| ensures now + Net(run[1..][..i], o) > 0 {
        assert run[..i + 1][1..] == run[1..][..i] && run[..i + 1][0] == run[0];
        assert [(t, a)][1..] == [];
      }
      assert [(t, a)][1..] == [];
      HandledOwnersLive(pre, Step(pre, st, t, a), run[1..], o, birth, now);
    }
  }

  /** A new owner lives, with one handle to begin with, until as many handles are dropped as were made. */
  lemma NewOwnersLive(pre: seq<Text>, before: seq<Label>, t: Tid, o: OwnerId, during: seq<Label>)
    requires Distinct(pre) && Possible(pre, Initial(pre), before)
    requires var st := After(pre, Initial(pre), before);
             Enabled(pre, st, t, NewOwner(o)) && Possible(pre, Step(pre, st, t, NewOwner(o)), during)
    requires forall i :: 0 <= i <= |during| ==> 1 + Net(during[..i], o) > 0
    ensures var st := After(pre, Initial(pre), before);
            var now := After(pre, Step(pre, st, t, NewOwner(o)), during);
            && o in now.owners && !now.owners[o].closing && now.owners[o].birth == st.clock
            && now.owners[o].external == 1 + Net(during, o)
  {
    hide Inv, Step, Enabled, Initial;
    var st := After(pre, Initial(pre), before);
    ReachableInv(pre, before);
    NewOwnerKeeps(pre, Everyone(), st, t, o);
    NewOwnerHandled(pre, st, t, o);
    HandledOwnersLive(pre, Step(pre, st, t, NewOwner(o)), during, o, st.clock, 1);
  }

  lemma NewOwnerHandled(pre: seq<Text>, st: State, t: Tid, o: OwnerId)
    requires Enabled(pre, st, t, NewOwner(o))
    ensures Handled(Step(pre, st, t, NewOwner(o)), o, st.clock, 1)
  {
  }
}
