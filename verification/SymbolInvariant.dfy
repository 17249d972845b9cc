/** What every step of the symbol system keeps. */
module SymbolInvariant {
  import opened Options
  import opened SymbolTable
  import opened SymbolSystem

  /** The owners that hold a symbol and have not begun to release it. */
  function Holders(owners: map<OwnerId, Owner>, s: Symbol): set<OwnerId> {
    set o | o in owners && s in owners[o].symbols
  }

  /** `s` spells `x`, and unless it is preloaded `o` retains it. */
  predicate Good(pre: seq<Text>, st: State, o: OwnerId, s: Symbol, x: Text) {
    TextOf(pre, st.table, s) == Some(x) && (IsPreloaded(pre, s) || (o in st.owners && s in st.owners[o].symbols))
  }

  // ----- Slots and owners -----

  /** Owner counts are exact. */
  ghost predicate Counted(pre: seq<Text>, table: Table, owners: map<OwnerId, Owner>) {
    forall s: Symbol :: IsLive(pre, table, s) ==> EntryOf(pre, table, s).owners == |Holders(owners, s)|
  }

  ghost predicate HoldsOnlyLive(pre: seq<Text>, table: Table, owners: map<OwnerId, Owner>) {
    forall o, s :: o in owners && s in owners[o].symbols ==> IsLive(pre, table, s)
  }

  /** A sole-owner claim names an owner that exists, and no other owner holds the symbol. */
  ghost predicate SoleExact(pre: seq<Text>, table: Table, owners: map<OwnerId, Owner>) {
    forall s: Symbol :: IsLive(pre, table, s) && EntryOf(pre, table, s).sole.Some? ==>
      && EntryOf(pre, table, s).sole.value in owners
      && Holders(owners, s) <= {EntryOf(pre, table, s).sole.value}
  }

  /** A slot without owners is the one whose release has been counted but not yet cleared. */
  ghost predicate UnownedIsCounted(pre: seq<Text>, st: State) {
    forall s: Symbol :: IsLive(pre, st.table, s) && EntryOf(pre, st.table, s).owners == 0 ==>
      exists t :: t in st.threads && st.threads[t].pc.Closing? && st.threads[t].pc.counted == Some(s)
  }

  ghost predicate OwnerOk(pre: seq<Text>, shared: iset<OwnerId>, st: State, o: OwnerId)
    requires o in st.owners
  {
    && o != 0
    && (st.owners[o].closing ==> st.owners[o].external == 0)
    && st.owners[o].birth < st.clock
    && (o !in shared && !st.owners[o].closing ==>
          forall s, x :: (s, x) in st.owners[o].issued ==> Good(pre, st, o, s, x))
  }

  ghost predicate MemoryInv(pre: seq<Text>, shared: iset<OwnerId>, st: State) {
    && Valid(pre, st.table)
    && HoldsOnlyLive(pre, st.table, st.owners)
    && Counted(pre, st.table, st.owners)
    && SoleExact(pre, st.table, st.owners)
    && UnownedIsCounted(pre, st)
    && (forall o {:trigger OwnerOk(pre, shared, st, o)} :: o in st.owners ==> OwnerOk(pre, shared, st, o))
  }

  // ----- Threads -----

  /** A cache that is as recent as the last release agrees with every slot it holds. */
  ghost predicate CacheOk(pre: seq<Text>, table: Table, released: nat, c: Cache) {
    && c.count <= released
    && (c.count == released ==>
          forall i: nat {:trigger c.bySlot[i]} :: i < |c.bySlot| && c.bySlot[i].Some? ==>
            && IsLive(pre, table, |pre| + i)
            && EntryOf(pre, table, |pre| + i).text == c.bySlot[i].value
            && EntryOf(pre, table, |pre| + i).owners > 0)
  }

  ghost predicate OpenOwner(st: State, o: OwnerId) {
    o in st.owners && !st.owners[o].closing
  }

  /** What a thread in the middle of an operation relies on. */
  ghost predicate PcOk(pre: seq<Text>, shared: iset<OwnerId>, st: State, th: Thread) {
    match th.pc
    case Lookup(text) => text !in pre
    case Looked(text, found) =>
      && text !in pre
      && (found.Some? ==>
            && !IsPreloaded(pre, found.value.0)
            && (th.stack != [] ==>
                  var o := Active(th).value;
                  && (found.value.1 == Some(o) ==> Good(pre, st, o, found.value.0, text))
                  && (o !in shared && OpenOwner(st, o) && found.value.0 in st.owners[o].symbols ==>
                        TextOf(pre, st.table, found.value.0) == Some(text))))
    case CheckExisting(text, s) =>
      && text !in pre && th.stack != [] && !IsPreloaded(pre, s)
      && (var o := Active(th).value;
          o !in shared && OpenOwner(st, o) && s in st.owners[o].symbols ==> TextOf(pre, st.table, s) == Some(text))
    case WantOwner(o, _) => OpenOwner(st, o)
    case WantTable(o, _) => OpenOwner(st, o)
    case Interned(o, text, s) => OpenOwner(st, o) && Good(pre, st, o, s, text)
    case OwnedWantOwner(text) => text !in pre && th.stack != []
    case OwnedWantTable(text) => text !in pre && th.stack != []
    case WantClose(o) => o in st.owners && st.owners[o].closing
    case Closing(o, counted) =>
      && o in st.owners && st.owners[o].closing
      && (counted.Some? ==> IsLive(pre, st.table, counted.value) && EntryOf(pre, st.table, counted.value).owners == 0)
    case _ => true
  }

  ghost predicate ThreadOk(pre: seq<Text>, shared: iset<OwnerId>, st: State, th: Thread) {
    && (forall o :: o in th.stack ==> OpenOwner(st, o))
    && CacheOk(pre, st.table, st.released, th.cache)
    && PcOk(pre, shared, st, th)
  }

  /** Locks exclude, and an owner is torn down by one thread. */
  ghost predicate Apart(a: Thread, b: Thread) {
    && !(a.pc.Closing? && b.pc.Closing?)
    && (forall o :: Closes(a.pc, o) ==> !Closes(b.pc, o))
    && (forall o :: HoldsOwnerWrite(a, o) ==> !HoldsOwnerWrite(b, o) && !HoldsOwnerRead(b, o))
  }

  ghost predicate ThreadsInv(pre: seq<Text>, shared: iset<OwnerId>, st: State) {
    && (forall t {:trigger ThreadOk(pre, shared, st, st.threads[t])} ::
          t in st.threads ==> ThreadOk(pre, shared, st, st.threads[t]))
    && (forall t, u {:trigger Apart(st.threads[t], st.threads[u])} ::
          t in st.threads && u in st.threads && t != u ==> Apart(st.threads[t], st.threads[u]))
  }

  ghost predicate Inv(pre: seq<Text>, shared: iset<OwnerId>, st: State) {
    MemoryInv(pre, shared, st) && ThreadsInv(pre, shared, st)
  }

  lemma InitialInv(pre: seq<Text>, shared: iset<OwnerId>)
    requires Distinct(pre)
    ensures Inv(pre, shared, Initial(pre))
  {
  }

  // ----- Steps that leave slots and holdings alone -----

  /** The same owners hold the same symbols; a new owner holds none. */
  ghost predicate SameHoldings(st: State, st': State) {
    && (forall o :: o in st.owners ==> o in st'.owners && st'.owners[o].symbols == st.owners[o].symbols)
    && (forall o :: o in st'.owners && o !in st.owners ==> st'.owners[o].symbols == {})
  }

  /** Owners close only when unused, and never reopen. */
  ghost predicate OwnersAge(st: State, st': State, t: Tid) {
    && (forall o :: o in st.owners && st.owners[o].closing ==> o in st'.owners && st'.owners[o].closing)
    && (forall o, u :: u in st.threads && u != t && Uses(st.threads[u], o) && OpenOwner(st, o) ==> OpenOwner(st', o))
  }

  /** A step of thread `t` that leaves the table, the counter and all holdings alone. The
      thread may take a lock only when nobody else's hold conflicts. */
  ghost predicate Quiet(pre: seq<Text>, shared: iset<OwnerId>, st: State, st': State, t: Tid) {
    && st'.table == st.table && st'.released == st.released
    && SameHoldings(st, st') && OwnersAge(st, st', t)
    && t in st'.threads && st'.threads == st.threads[t := st'.threads[t]]
    && (forall o :: o in st'.owners ==> OwnerOk(pre, shared, st', o))
    && ThreadOk(pre, shared, st', st'.threads[t])
    && (forall u :: u in st.threads && u != t ==>
          Apart(st'.threads[t], st.threads[u]) && Apart(st.threads[u], st'.threads[t]))
    && (t in st.threads && st.threads[t].pc.Closing? ==> st'.threads[t].pc == st.threads[t].pc)
  }

  lemma QuietStep(pre: seq<Text>, shared: iset<OwnerId>, st: State, st': State, t: Tid)
    requires Inv(pre, shared, st) && Quiet(pre, shared, st, st', t)
    ensures Inv(pre, shared, st')
  {
    forall u | u in st'.threads && u != t ensures ThreadOk(pre, shared, st', st'.threads[u]) {
      assert ThreadOk(pre, shared, st, st.threads[u]);
      QuietPc(pre, shared, st, st', t, u);
    }
    forall s: Symbol ensures Holders(st'.owners, s) == Holders(st.owners, s) {
    }
    assert UnownedIsCounted(pre, st') by {
      forall s: Symbol | IsLive(pre, st'.table, s) && EntryOf(pre, st'.table, s).owners == 0
        ensures exists u :: u in st'.threads && st'.threads[u].pc.Closing? && st'.threads[u].pc.counted == Some(s)
      {
        var u :| u in st.threads && st.threads[u].pc.Closing? && st.threads[u].pc.counted == Some(s);
        assert u in st'.threads && st'.threads[u].pc.Closing? && st'.threads[u].pc.counted == Some(s);
      }
    }
  }

  /** What another thread relies on survives a quiet step. */
  lemma QuietPc(pre: seq<Text>, shared: iset<OwnerId>, st: State, st': State, t: Tid, u: Tid)
    requires u in st.threads && u != t && ThreadOk(pre, shared, st, st.threads[u])
    requires st'.table == st.table && SameHoldings(st, st') && OwnersAge(st, st', t)
    ensures forall o :: o in st.threads[u].stack ==> OpenOwner(st', o)
    ensures PcOk(pre, shared, st', st.threads[u])
  {
  }

  /** Owner bookkeeping that a quiet step did not touch stays in order. */
  lemma OwnersKeep(pre: seq<Text>, shared: iset<OwnerId>, st: State, st': State, o: OwnerId)
    requires o in st.owners && OwnerOk(pre, shared, st, o)
    requires st'.table == st.table && SameHoldings(st, st') && st'.clock >= st.clock
    requires st'.owners[o].birth == st.owners[o].birth
    requires st'.owners[o].closing ==> st'.owners[o].external == 0
    requires st.owners[o].closing ==> st'.owners[o].closing
    requires forall s, x :: (s, x) in st'.owners[o].issued - st.owners[o].issued && o !in shared ==>
                              Good(pre, st, o, s, x)
    ensures OwnerOk(pre, shared, st', o)
  {
  }

  lemma AllOwnersKeep(pre: seq<Text>, shared: iset<OwnerId>, st: State, st': State)
    requires MemoryInv(pre, shared, st) && st'.table == st.table && st'.owners == st.owners && st'.clock == st.clock
    ensures forall o :: o in st'.owners ==> OwnerOk(pre, shared, st', o)
  {
    forall o | o in st'.owners ensures OwnerOk(pre, shared, st', o) {
      OwnersKeep(pre, shared, st, st', o);
    }
  }

  /** Replacing one thread's record by another that is in order. */
  lemma ThreadStep(pre: seq<Text>, shared: iset<OwnerId>, st: State, t: Tid, th: Thread)
    requires Inv(pre, shared, st) && ThreadOk(pre, shared, st, th)
    requires forall u :: u in st.threads && u != t ==> Apart(th, st.threads[u]) && Apart(st.threads[u], th)
    requires t in st.threads && st.threads[t].pc.Closing? ==> th.pc == st.threads[t].pc
    ensures Inv(pre, shared, SetThread(st, t, th))
  {
    var st' := SetThread(st, t, th);
    AllOwnersKeep(pre, shared, st, st');
    QuietStep(pre, shared, st, st', t);
  }

  /** A thread that takes no lock stays apart from the others. */
  lemma LockFreeApart(st: State, t: Tid, th: Thread)
    requires !th.pc.Closing? && !th.pc.WantClose? && !th.pc.WantTable? && !th.pc.Interned? && !th.pc.OwnedWantTable?
    ensures forall u :: u in st.threads && u != t ==> Apart(th, st.threads[u]) && Apart(st.threads[u], th)
  {
  }

  /** Steps that begin an operation, or answer one without a lock. */
  lemma StartKeeps(pre: seq<Text>, shared: iset<OwnerId>, st: State, t: Tid, a: Action)
    requires Inv(pre, shared, st) && Enabled(pre, st, t, a)
    requires a.Spawn? || a.ForgetCache? || a.Enter? || a.StartIntern? || a.StartOwnerIntern? || a.StartLookupOwned?
             || a.StartResolve? || a.ReadOwned? || a.CheckCache?
    ensures Inv(pre, shared, Step(pre, st, t, a))
  {
    var st' := Step(pre, st, t, a);
    var th := st'.threads[t];
    assert st' == SetThread(st, t, th);
    LockFreeApart(st, t, th);
    if t in st.threads {
      assert ThreadOk(pre, shared, st, st.threads[t]);
    }
    assert ThreadOk(pre, shared, st, th);
    ThreadStep(pre, shared, st, t, th);
  }

  /** Steps that take a lock. */
  lemma LockKeeps(pre: seq<Text>, shared: iset<OwnerId>, st: State, t: Tid, a: Action)
    requires Inv(pre, shared, st) && Enabled(pre, st, t, a)
    requires a.LockOwner? || a.LockOwnedSet? || a.LockTable?
    ensures Inv(pre, shared, Step(pre, st, t, a))
  {
    hide Inv, MemoryInv, CacheOk, Apart;
    var th := Step(pre, st, t, a).threads[t];
    LockedApart(pre, shared, st, t, a);
    ThreadStep(pre, shared, st, t, th);
  }

  /** A lock is taken only when nobody's hold conflicts. */
  lemma LockedApart(pre: seq<Text>, shared: iset<OwnerId>, st: State, t: Tid, a: Action)
    requires Inv(pre, shared, st) && Enabled(pre, st, t, a)
    requires a.LockOwner? || a.LockOwnedSet? || a.LockTable?
    ensures var th := Step(pre, st, t, a).threads[t];
            && ThreadOk(pre, shared, st, th) && !st.threads[t].pc.Closing?
            && forall u :: u in st.threads && u != t ==> Apart(th, st.threads[u]) && Apart(st.threads[u], th)
  {
    hide MemoryInv, CacheOk;
    var th := Step(pre, st, t, a).threads[t];
    assert ThreadOk(pre, shared, st, st.threads[t]);
    forall u | u in st.threads && u != t ensures Apart(th, st.threads[u]) && Apart(st.threads[u], th) {
      assert Apart(st.threads[t], st.threads[u]) && Apart(st.threads[u], st.threads[t]);
    }
  }

  // ----- Name::intern -----

  /** While no slot is half released, every live slot has an owner. */
  lemma LiveIsOwned(pre: seq<Text>, shared: iset<OwnerId>, st: State, s: Symbol)
    requires MemoryInv(pre, shared, st) && TableFree(st) && IsLive(pre, st.table, s)
    ensures EntryOf(pre, st.table, s).owners > 0
    ensures Holders(st.owners, s) != {}
  {
  }

  /** A claim of sole ownership read under the interner's lock is a holding. */
  lemma SoleHolds(pre: seq<Text>, shared: iset<OwnerId>, st: State, s: Symbol, o: OwnerId)
    requires MemoryInv(pre, shared, st) && TableFree(st)
    requires SoleOwner(pre, st.table, s) == Some(o)
    ensures o in st.owners && s in st.owners[o].symbols
    ensures Holders(st.owners, s) == {o}
  {
  }

  lemma ReadTableKeeps(pre: seq<Text>, shared: iset<OwnerId>, st: State, t: Tid)
    requires Inv(pre, shared, st) && Enabled(pre, st, t, ReadTable)
    ensures Inv(pre, shared, Step(pre, st, t, ReadTable))
  {
    var th := Step(pre, st, t, ReadTable).threads[t];
    var text := th.pc.text;
    assert ThreadOk(pre, shared, st, st.threads[t]);
    if th.pc.found.Some? {
      var (s, sole) := th.pc.found.value;
      assert TextOf(pre, st.table, s) == Some(text);
      if th.stack != [] && sole == Active(th) {
        SoleHolds(pre, shared, st, s, Active(th).value);
      }
    }
    LockFreeApart(st, t, th);
    ThreadStep(pre, shared, st, t, th);
  }

  /** Returning a name that is good for its owner. */
  lemma IssueKeeps(pre: seq<Text>, shared: iset<OwnerId>, st: State, t: Tid, o: OwnerId, s: Symbol, text: Text)
    requires Inv(pre, shared, st) && t in st.threads && !st.threads[t].pc.Closing?
    requires OpenOwner(st, o) && (o in shared || Good(pre, st, o, s, text))
    ensures Inv(pre, shared, Issue(st, t, o, s, text))
  {
    var st' := Issue(st, t, o, s, text);
    assert ThreadOk(pre, shared, st, st.threads[t]);
    forall x | x in st'.owners ensures OwnerOk(pre, shared, st', x) {
      OwnersKeep(pre, shared, st, st', x);
    }
    LockFreeApart(st, t, st'.threads[t]);
    QuietStep(pre, shared, st, st', t);
  }

  lemma DecideKeeps(pre: seq<Text>, shared: iset<OwnerId>, st: State, t: Tid)
    requires Inv(pre, shared, st) && Enabled(pre, st, t, Decide)
    ensures Inv(pre, shared, Step(pre, st, t, Decide))
  {
    var th := st.threads[t];
    assert ThreadOk(pre, shared, st, th);
    var th' := Step(pre, st, t, Decide).threads[t];
    if th.pc.found.Some? && th.stack != [] && th.pc.found.value.1 == Active(th) {
      IssueKeeps(pre, shared, st, t, Active(th).value, th.pc.found.value.0, th.pc.text);
    } else {
      LockFreeApart(st, t, th');
      assert th.stack != [] ==> Active(th).value in th.stack;
      ThreadStep(pre, shared, st, t, th');
    }
  }

  lemma ReadOwnerKeeps(pre: seq<Text>, shared: iset<OwnerId>, st: State, t: Tid)
    requires Inv(pre, shared, st) && Enabled(pre, st, t, ReadOwner)
    ensures Inv(pre, shared, Step(pre, st, t, ReadOwner))
  {
    var th := st.threads[t];
    var o := Active(th).value;
    assert ThreadOk(pre, shared, st, th);
    assert o in th.stack;
    if th.pc.symbol in st.owners[o].symbols {
      IssueKeeps(pre, shared, st, t, o, th.pc.symbol, th.pc.text);
    } else {
      var th' := Step(pre, st, t, ReadOwner).threads[t];
      LockFreeApart(st, t, th');
      ThreadStep(pre, shared, st, t, th');
    }
  }

  lemma UnlockOwnerKeeps(pre: seq<Text>, shared: iset<OwnerId>, st: State, t: Tid)
    requires Inv(pre, shared, st) && Enabled(pre, st, t, UnlockOwner)
    ensures Inv(pre, shared, Step(pre, st, t, UnlockOwner))
  {
    var pc := st.threads[t].pc;
    assert ThreadOk(pre, shared, st, st.threads[t]);
    IssueKeeps(pre, shared, st, t, pc.owner, pc.symbol, pc.text);
  }

  // ----- Handles -----

  lemma NewOwnerKeeps(pre: seq<Text>, shared: iset<OwnerId>, st: State, t: Tid, o: OwnerId)
    requires Inv(pre, shared, st) && Enabled(pre, st, t, NewOwner(o))
    ensures Inv(pre, shared, Step(pre, st, t, NewOwner(o)))
  {
    var st' := Step(pre, st, t, NewOwner(o));
    assert st'.threads == st.threads[t := st.threads[t]];
    forall x | x in st'.owners ensures OwnerOk(pre, shared, st', x) {
      if x != o {
        OwnersKeep(pre, shared, st, st', x);
      }
    }
    assert ThreadOk(pre, shared, st, st.threads[t]);
    assert ThreadOk(pre, shared, st', st.threads[t]);
    QuietStep(pre, shared, st, st', t);
  }

  lemma CloneHandleKeeps(pre: seq<Text>, shared: iset<OwnerId>, st: State, t: Tid, o: OwnerId)
    requires Inv(pre, shared, st) && Enabled(pre, st, t, CloneHandle(o))
    ensures Inv(pre, shared, Step(pre, st, t, CloneHandle(o)))
  {
    var st' := Step(pre, st, t, CloneHandle(o));
    assert st'.threads == st.threads[t := st.threads[t]];
    forall x | x in st'.owners ensures OwnerOk(pre, shared, st', x) {
      OwnersKeep(pre, shared, st, st', x);
    }
    assert ThreadOk(pre, shared, st, st.threads[t]);
    assert ThreadOk(pre, shared, st', st.threads[t]);
    QuietStep(pre, shared, st, st', t);
  }

  /** Starting to close an owner nobody uses. */
  lemma CloseIfLastKeeps(pre: seq<Text>, shared: iset<OwnerId>, st: State, t: Tid, o: OwnerId)
    requires Inv(pre, shared, st) && t in st.threads && st.threads[t].pc.Idle? && OpenOwner(st, o)
    ensures Inv(pre, shared, CloseIfLast(st, t, o))
  {
    var st' := CloseIfLast(st, t, o);
    if st' != st {
      var th := st'.threads[t];
      forall x | x in st'.owners ensures OwnerOk(pre, shared, st', x) {
        OwnersKeep(pre, shared, st, st', x);
      }
      assert ThreadOk(pre, shared, st, st.threads[t]);
      assert !Uses(st.threads[t], o);
      assert ThreadOk(pre, shared, st', th);
      forall u | u in st.threads && u != t ensures Apart(th, st.threads[u]) && Apart(st.threads[u], th) {
        assert ThreadOk(pre, shared, st, st.threads[u]);
      }
      QuietStep(pre, shared, st, st', t);
    }
  }

  lemma DropHandleKeeps(pre: seq<Text>, shared: iset<OwnerId>, st: State, t: Tid, o: OwnerId)
    requires Inv(pre, shared, st) && Enabled(pre, st, t, DropHandle(o))
    ensures Inv(pre, shared, Step(pre, st, t, DropHandle(o)))
  {
    var mid := SetOwner(st, o, st.owners[o].(external := st.owners[o].external - 1));
    assert mid.threads == st.threads[t := st.threads[t]];
    assert OwnerOk(pre, shared, st, o);
    forall x | x in mid.owners ensures OwnerOk(pre, shared, mid, x) {
      OwnersKeep(pre, shared, st, mid, x);
    }
    assert ThreadOk(pre, shared, st, st.threads[t]);
    assert ThreadOk(pre, shared, mid, st.threads[t]);
    QuietStep(pre, shared, st, mid, t);
    CloseIfLastKeeps(pre, shared, mid, t, o);
  }

  lemma ExitKeeps(pre: seq<Text>, shared: iset<OwnerId>, st: State, t: Tid)
    requires Inv(pre, shared, st) && Enabled(pre, st, t, Exit)
    ensures Inv(pre, shared, Step(pre, st, t, Exit))
  {
    var th := st.threads[t];
    var o := Active(th).value;
    var th' := th.(stack := th.stack[..|th.stack| - 1]);
    assert ThreadOk(pre, shared, st, th);
    assert o in th.stack;
    LockFreeApart(st, t, th');
    ThreadStep(pre, shared, st, t, th');
    CloseIfLastKeeps(pre, shared, SetThread(st, t, th'), t, o);
  }

  // ----- Spellings -----

  lemma LoadOneOk(pre: seq<Text>, t: Table, released: nat, c: Cache, s: Symbol)
    requires CacheOk(pre, t, released, c) && c.count == released
    requires IsLive(pre, t, s) ==> EntryOf(pre, t, s).owners > 0
    ensures CacheOk(pre, t, released, LoadOne(pre, t, c, s)) && LoadOne(pre, t, c, s).count == released
    ensures IsLive(pre, t, s) ==> Shared(pre, LoadOne(pre, t, c, s), s) == TextOf(pre, t, s)
    ensures forall r: Symbol :: Shared(pre, c, r).Some? ==> Shared(pre, LoadOne(pre, t, c, s), r) == Shared(pre, c, r)
  {
  }

  /** After a load, the copies of the requested symbols are exactly their spellings. */
  lemma {:induction false} LoadAllOk(pre: seq<Text>, t: Table, released: nat, c: Cache, symbols: seq<Symbol>)
    requires CacheOk(pre, t, released, c) && c.count == released
    requires forall s: Symbol :: IsLive(pre, t, s) ==> EntryOf(pre, t, s).owners > 0
    ensures var c' := LoadAll(pre, t, c, symbols);
            && CacheOk(pre, t, released, c') && c'.count == released
            && (forall r: Symbol :: Shared(pre, c, r).Some? ==> Shared(pre, c', r) == Shared(pre, c, r))
            && (forall s :: s in symbols && IsLive(pre, t, s) ==> Shared(pre, c', s) == TextOf(pre, t, s))
    decreases |symbols|
  {
    if symbols != [] {
      LoadOneOk(pre, t, released, c, symbols[0]);
      LoadAllOk(pre, t, released, LoadOne(pre, t, c, symbols[0]), symbols[1..]);
    }
  }

  lemma LoadOk(pre: seq<Text>, shared: iset<OwnerId>, st: State, c: Cache, symbols: seq<Symbol>)
    requires MemoryInv(pre, shared, st) && TableFree(st) && CacheOk(pre, st.table, st.released, c)
    ensures var c' := Load(pre, st.table, st.released, c, symbols);
            && CacheOk(pre, st.table, st.released, c') && c'.count == st.released
            && (forall s :: s in symbols && IsLive(pre, st.table, s) ==> Shared(pre, c', s) == TextOf(pre, st.table, s))
  {
    forall s: Symbol | IsLive(pre, st.table, s) ensures EntryOf(pre, st.table, s).owners > 0 {
      LiveIsOwned(pre, shared, st, s);
    }
    LoadAllOk(pre, st.table, st.released, if c.count != st.released then Cache(st.released, []) else c, symbols);
  }

  lemma LoadCacheKeeps(pre: seq<Text>, shared: iset<OwnerId>, st: State, t: Tid)
    requires Inv(pre, shared, st) && Enabled(pre, st, t, LoadCache)
    ensures Inv(pre, shared, Step(pre, st, t, LoadCache))
  {
    var th := Step(pre, st, t, LoadCache).threads[t];
    assert ThreadOk(pre, shared, st, st.threads[t]);
    LoadOk(pre, shared, st, st.threads[t].cache, st.threads[t].pc.symbols);
    LockFreeApart(st, t, th);
    ThreadStep(pre, shared, st, t, th);
  }

  // ----- The full intern, under both locks -----

  /** Enrolling leaves every other entry alone and keeps all spellings. */
  lemma EnrollTexts(pre: seq<Text>, table: Table, symbols: set<Symbol>, o: OwnerId, text: Text)
    requires Valid(pre, table)
    ensures var (table', symbols', s) := Enroll(pre, table, symbols, o, text);
            && Valid(pre, table')
            && TextOf(pre, table', s) == Some(text)
            && (forall r: Symbol :: TextOf(pre, table, r).Some? ==> TextOf(pre, table', r) == TextOf(pre, table, r))
            && (forall r: Symbol :: r != s ==> IsLive(pre, table', r) == IsLive(pre, table, r))
            && (forall r: Symbol :: r != s && IsLive(pre, table, r) ==>
                  EntryOf(pre, table', r) == EntryOf(pre, table, r))
            && symbols' == symbols + (if IsPreloaded(pre, s) then {} else {s})
  {
    var (table', s) := Intern(pre, table, text);
    InternSpells(pre, table, text);
    RetainKeeps(pre, table', s, o);
    forall r: Symbol | r != s ensures IsLive(pre, table', r) == IsLive(pre, table, r) {
      assert TextOf(pre, table', r) == TextOf(pre, table, r);
    }
  }

  /** What enrolling does to the entry of its symbol. */
  lemma EnrollEntry(pre: seq<Text>, table: Table, symbols: set<Symbol>, o: OwnerId, text: Text)
    requires Valid(pre, table)
    ensures var (table', symbols', s) := Enroll(pre, table, symbols, o, text);
            !IsPreloaded(pre, s) ==>
              && IsLive(pre, table', s)
              && (var e := EntryOf(pre, table', s);
                  && (!IsLive(pre, table, s) && s !in symbols ==> e.owners == 1 && e.sole == Some(o))
                  && (IsLive(pre, table, s) && s in symbols ==> table' == table)
                  && (IsLive(pre, table, s) && s !in symbols ==>
                        && e.owners == EntryOf(pre, table, s).owners + 1
                        && (EntryOf(pre, table, s).owners > 0 ==>
                              e.sole == (if EntryOf(pre, table, s).sole == Some(o) then Some(o) else None))))
  {
    var (table', s) := Intern(pre, table, text);
    InternSpells(pre, table, text);
    assert !IsPreloaded(pre, s) ==> IsLive(pre, table', s);
    assert !IsPreloaded(pre, s) ==> (TextOf(pre, table, s).Some? <==> IsLive(pre, table, s));
  }

  lemma AllLiveOwned(pre: seq<Text>, shared: iset<OwnerId>, st: State)
    requires MemoryInv(pre, shared, st) && TableFree(st)
    ensures forall r: Symbol :: IsLive(pre, st.table, r) ==> EntryOf(pre, st.table, r).owners > 0
  {
  }

  /** The holders of each symbol after `o` has enrolled `s`. */
  lemma HoldersGrow(owners: map<OwnerId, Owner>, o: OwnerId, more: set<Symbol>)
    requires o in owners
    ensures var owners' := owners[o := owners[o].(symbols := owners[o].symbols + more)];
            forall r: Symbol :: Holders(owners', r) == Holders(owners, r) + (if r in more then {o} else {})
  {
  }

  /** Counts and sole-owner claims stay exact when `o` enrolls a symbol. */
  lemma EnrollMemory(pre: seq<Text>, shared: iset<OwnerId>, st: State, o: OwnerId, text: Text)
    requires MemoryInv(pre, shared, st) && TableFree(st) && OpenOwner(st, o)
    ensures var (table', symbols', s) := Enroll(pre, st.table, st.owners[o].symbols, o, text);
            var owners' := st.owners[o := st.owners[o].(symbols := symbols')];
            && HoldsOnlyLive(pre, table', owners') && Counted(pre, table', owners')
            && SoleExact(pre, table', owners')
            && (forall r: Symbol :: IsLive(pre, table', r) ==> EntryOf(pre, table', r).owners > 0)
  {
    hide Enroll, Valid, Counted, SoleExact, Holders, UnownedIsCounted, OwnerOk;
    var symbols := st.owners[o].symbols;
    EnrollTexts(pre, st.table, symbols, o, text);
    EnrollEntry(pre, st.table, symbols, o, text);
    AllLiveOwned(pre, shared, st);
    var (table', symbols', s) := Enroll(pre, st.table, symbols, o, text);
    HoldersGrow(st.owners, o, if IsPreloaded(pre, s) then {} else {s});
    EnrollHolders(pre, st, o, table', st.owners[o := st.owners[o].(symbols := symbols')], s);
  }

  /** An entry's count and sole-owner claim are right for its set of holders. */
  ghost predicate EntryExact(e: Entry, holders: set<OwnerId>, known: set<OwnerId>) {
    && e.owners == |holders|
    && (e.sole.Some? ==> e.sole.value in known && holders <= {e.sole.value})
  }

  /** Retaining for one more owner keeps an entry exact. */
  lemma RetainExact(e: Entry, e': Entry, holders: set<OwnerId>, known: set<OwnerId>, o: OwnerId)
    requires EntryExact(e, holders, known) && e.owners > 0 && o !in holders
    requires e'.owners == e.owners + 1 && e'.sole == (if e.sole == Some(o) then Some(o) else None)
    ensures EntryExact(e', holders + {o}, known)
  {
  }

  /** The arithmetic of `EnrollMemory`, from what it knows of the two tables. */
  lemma EnrollHolders(pre: seq<Text>, st: State, o: OwnerId, table': Table, owners': map<OwnerId, Owner>, s: Symbol)
    requires HoldsOnlyLive(pre, st.table, st.owners) && Counted(pre, st.table, st.owners)
    requires SoleExact(pre, st.table, st.owners) && o in st.owners && owners'.Keys == st.owners.Keys
    requires forall r: Symbol :: r != s ==> IsLive(pre, table', r) == IsLive(pre, st.table, r)
    requires forall r: Symbol :: r != s && IsLive(pre, st.table, r) ==>
               EntryOf(pre, table', r) == EntryOf(pre, st.table, r)
    requires forall r: Symbol :: IsLive(pre, st.table, r) ==> EntryOf(pre, st.table, r).owners > 0
    requires forall r: Symbol :: Holders(owners', r)
                                 == Holders(st.owners, r) + (if r == s && !IsPreloaded(pre, s) then {o} else {})
    requires s in st.owners[o].symbols ==> IsLive(pre, st.table, s) && table' == st.table
    requires !IsPreloaded(pre, s) ==> IsLive(pre, table', s)
    requires !IsPreloaded(pre, s) && s !in st.owners[o].symbols ==>
               var e := EntryOf(pre, table', s);
               && (!IsLive(pre, st.table, s) ==> e.owners == 1 && e.sole == Some(o))
               && (IsLive(pre, st.table, s) ==>
                     && e.owners == EntryOf(pre, st.table, s).owners + 1
                     && e.sole == (if EntryOf(pre, st.table, s).sole == Some(o) then Some(o) else None))
    ensures HoldsOnlyLive(pre, table', owners') && Counted(pre, table', owners') && SoleExact(pre, table', owners')
    ensures forall r: Symbol :: IsLive(pre, table', r) ==> EntryOf(pre, table', r).owners > 0
  {
    forall x, r | x in owners' && r in owners'[x].symbols ensures IsLive(pre, table', r) {
      assert x in Holders(owners', r);
      if r != s || IsPreloaded(pre, s) {
        assert x in Holders(st.owners, r);
      }
    }
    forall r: Symbol | IsLive(pre, table', r)
      ensures EntryExact(EntryOf(pre, table', r), Holders(owners', r), owners'.Keys)
      ensures EntryOf(pre, table', r).owners > 0
    {
      if r != s {
        assert EntryExact(EntryOf(pre, st.table, r), Holders(st.owners, r), st.owners.Keys);
      } else if s in st.owners[o].symbols {
        assert o in Holders(st.owners, s);
        assert Holders(owners', s) == Holders(st.owners, s);
        assert EntryExact(EntryOf(pre, st.table, r), Holders(st.owners, r), st.owners.Keys);
      } else {
        assert o !in Holders(st.owners, s);
        if IsLive(pre, st.table, s) {
          assert EntryExact(EntryOf(pre, st.table, s), Holders(st.owners, s), st.owners.Keys);
          RetainExact(EntryOf(pre, st.table, s), EntryOf(pre, table', s), Holders(st.owners, s), st.owners.Keys, o);
        } else {
          assert Holders(st.owners, s) == {};
          assert Holders(owners', s) == {o};
        }
      }
    }
  }

  lemma EnrollCache(pre: seq<Text>, table: Table, table': Table, released: nat, c: Cache)
    requires CacheOk(pre, table, released, c)
    requires forall r: Symbol :: TextOf(pre, table, r).Some? ==> TextOf(pre, table', r) == TextOf(pre, table, r)
    requires forall r: Symbol :: IsLive(pre, table', r) ==> EntryOf(pre, table', r).owners > 0
    ensures CacheOk(pre, table', released, c)
  {
    if c.count == released {
      forall i: nat | i < |c.bySlot| && c.bySlot[i].Some?
        ensures IsLive(pre, table', |pre| + i) && EntryOf(pre, table', |pre| + i).text == c.bySlot[i].value
                && EntryOf(pre, table', |pre| + i).owners > 0
      {
        assert TextOf(pre, table, |pre| + i) == c.bySlot[i];
        assert TextOf(pre, table', |pre| + i) == c.bySlot[i];
      }
    }
  }

  /** Holdings of `o` may grow, and spellings may be added. */
  ghost predicate Grows(pre: seq<Text>, st: State, st': State, o: OwnerId) {
    && st'.owners.Keys == st.owners.Keys
    && (forall x :: x in st.owners && x != o ==> st'.owners[x] == st.owners[x])
    && (o in st.owners ==> st'.owners[o].closing == st.owners[o].closing
                           && st.owners[o].symbols <= st'.owners[o].symbols
                           && st'.owners[o].external == st.owners[o].external
                           && st'.owners[o].birth == st.owners[o].birth
                           && st'.owners[o].issued == st.owners[o].issued)
    && (forall r: Symbol :: TextOf(pre, st.table, r).Some? ==> TextOf(pre, st'.table, r) == TextOf(pre, st.table, r))
    && st'.clock == st.clock
  }

  /** A thread is not disturbed when an owner grows that it does not use or that is shared. */
  lemma GrowsPc(pre: seq<Text>, shared: iset<OwnerId>, st: State, st': State, o: OwnerId, th: Thread)
    requires Grows(pre, st, st', o) && HoldsOnlyLive(pre, st.table, st.owners)
    requires !th.pc.Closing? && (o in shared || !Uses(th, o))
    requires (forall x :: x in th.stack ==> OpenOwner(st, x)) && PcOk(pre, shared, st, th)
    ensures forall x :: x in th.stack ==> OpenOwner(st', x)
    ensures PcOk(pre, shared, st', th)
  {
  }

  lemma GrowsOwners(pre: seq<Text>, shared: iset<OwnerId>, st: State, st': State, o: OwnerId)
    requires Grows(pre, st, st', o)
    requires forall x :: x in st.owners ==> OwnerOk(pre, shared, st, x)
    ensures forall x :: x in st'.owners ==> OwnerOk(pre, shared, st', x)
  {
  }

  /** What the full intern writes. */
  lemma InternLockedWrites(pre: seq<Text>, st: State, t: Tid)
    requires Enabled(pre, st, t, InternLocked)
    ensures var (th, st') := (st.threads[t], Step(pre, st, t, InternLocked));
            var o := th.pc.owner;
            var (table', symbols', s) := Enroll(pre, st.table, st.owners[o].symbols, o, th.pc.text);
            && st'.table == table' && st'.released == st.released && st'.clock == st.clock
            && st'.owners == st.owners[o := st.owners[o].(symbols := symbols')]
            && st'.threads == st.threads[t := th.(pc := Interned(o, th.pc.text, s))]
  {
    hide Enroll;
  }

  /** What a thread about to intern under both locks knows. */
  lemma InternLockedReady(pre: seq<Text>, shared: iset<OwnerId>, st: State, t: Tid)
    requires Inv(pre, shared, st) && Enabled(pre, st, t, InternLocked)
    ensures t in st.threads && st.threads[t].pc.WantTable? && ThreadOk(pre, shared, st, st.threads[t])
    ensures TableFree(st) && OpenOwner(st, st.threads[t].pc.owner) && MemoryInv(pre, shared, st)
  {
    assert ThreadOk(pre, shared, st, st.threads[t]);
  }

  lemma InternLockedGrows(pre: seq<Text>, shared: iset<OwnerId>, st: State, t: Tid)
    requires Inv(pre, shared, st) && Enabled(pre, st, t, InternLocked)
    ensures t in st.threads && st.threads[t].pc.WantTable?
    ensures var st' := Step(pre, st, t, InternLocked);
            && Grows(pre, st, st', st.threads[t].pc.owner) && MemoryInv(pre, shared, st')
            && (forall r: Symbol :: IsLive(pre, st'.table, r) ==> EntryOf(pre, st'.table, r).owners > 0)
            && PcOk(pre, shared, st', st'.threads[t])
  {
    hide Step, Enabled, Inv, ThreadOk, Enroll, Valid, Counted, SoleExact, Holders, OwnerOk;
    InternLockedReady(pre, shared, st, t);
    InternLockedWrites(pre, st, t);
    var st' := Step(pre, st, t, InternLocked);
    var th := st.threads[t];
    var o := th.pc.owner;
    EnrollTexts(pre, st.table, st.owners[o].symbols, o, th.pc.text);
    EnrollMemory(pre, shared, st, o, th.pc.text);
    assert Grows(pre, st, st', o);
    GrowsOwners(pre, shared, st, st', o);
  }

  /** The acting thread after the full intern, and everybody else. */
  lemma InternLockedKeeps(pre: seq<Text>, shared: iset<OwnerId>, st: State, t: Tid)
    requires Inv(pre, shared, st) && KeepsTo(shared, st) && Enabled(pre, st, t, InternLocked)
    ensures Inv(pre, shared, Step(pre, st, t, InternLocked))
  {
    hide Step, Enabled, Enroll, MemoryInv;
    InternLockedReady(pre, shared, st, t);
    InternLockedWrites(pre, st, t);
    InternLockedGrows(pre, shared, st, t);
    GrowsThreads(pre, shared, st, Step(pre, st, t, InternLocked), t);
  }

  /** The threads part of the invariant after thread `t` has let its owner grow. */
  lemma GrowsThreads(pre: seq<Text>, shared: iset<OwnerId>, st: State, st': State, t: Tid)
    requires ThreadsInv(pre, shared, st) && HoldsOnlyLive(pre, st.table, st.owners) && KeepsTo(shared, st)
    requires t in st.threads && st.threads[t].pc.WantTable? && TableFree(st) && st'.released == st.released
    requires Grows(pre, st, st', st.threads[t].pc.owner)
    requires forall r: Symbol :: IsLive(pre, st'.table, r) ==> EntryOf(pre, st'.table, r).owners > 0
    requires t in st'.threads && st'.threads == st.threads[t := st'.threads[t]]
    requires PcOk(pre, shared, st', st'.threads[t])
    requires var (th, th') := (st.threads[t], st'.threads[t]);
             th' == th.(pc := th'.pc) && th'.pc.Interned? && th'.pc.owner == th.pc.owner
    ensures ThreadsInv(pre, shared, st')
  {
    hide PcOk, CacheOk, HoldsOnlyLive;
    var th := st.threads[t];
    var o := th.pc.owner;
    forall u | u in st'.threads ensures ThreadOk(pre, shared, st', st'.threads[u]) {
      assert ThreadOk(pre, shared, st, st.threads[u]);
      EnrollCache(pre, st.table, st'.table, st.released, st.threads[u].cache);
      if u != t {
        assert Uses(th, o);
        GrowsPc(pre, shared, st, st', o, st.threads[u]);
      }
    }
    forall u | u in st.threads && u != t
      ensures Apart(st'.threads[t], st.threads[u]) && Apart(st.threads[u], st'.threads[t])
    {
      assert Apart(th, st.threads[u]) && Apart(st.threads[u], th);
    }
  }

  // ----- Closing an owner -----

  /** Under the interner's write lock, only the slot counted by its holder has no owner. */
  lemma OthersOwned(pre: seq<Text>, shared: iset<OwnerId>, st: State, t: Tid, s: Symbol)
    requires Inv(pre, shared, st) && t in st.threads && st.threads[t].pc.Closing?
    requires IsLive(pre, st.table, s) && st.threads[t].pc.counted != Some(s)
    ensures EntryOf(pre, st.table, s).owners > 0
  {
    assert forall u :: u in st.threads && u != t ==> Apart(st.threads[u], st.threads[t]);
  }

  /** Nobody else relies on a closing owner or on its symbols. */
  ghost predicate Shrinks(pre: seq<Text>, st: State, st': State, o: OwnerId) {
    && st'.clock == st.clock
    && (forall x :: x in st.owners && x != o ==> x in st'.owners && st'.owners[x] == st.owners[x])
    && (forall x :: x in st'.owners ==> x in st.owners)
    && (o in st'.owners ==> st'.owners[o].closing && st'.owners[o].external == st.owners[o].external
                            && st'.owners[o].birth == st.owners[o].birth)
    && (forall x, r :: x in st.owners && x != o && r in st.owners[x].symbols ==>
                         TextOf(pre, st'.table, r) == TextOf(pre, st.table, r))
    && (forall r :: TextOf(pre, st'.table, r) == TextOf(pre, st.table, r) || TextOf(pre, st'.table, r) == None)
    && (forall r: Symbol :: IsPreloaded(pre, r) ==> TextOf(pre, st'.table, r) == TextOf(pre, st.table, r))
  }

  lemma ShrinksOwners(pre: seq<Text>, shared: iset<OwnerId>, st: State, st': State, o: OwnerId)
    requires Shrinks(pre, st, st', o)
    requires o in st.owners && st.owners[o].closing && forall x :: x in st.owners ==> OwnerOk(pre, shared, st, x)
    ensures forall x :: x in st'.owners ==> OwnerOk(pre, shared, st', x)
  {
  }

  lemma ShrinksPc(pre: seq<Text>, shared: iset<OwnerId>, st: State, st': State, o: OwnerId, th: Thread)
    requires Shrinks(pre, st, st', o) && o in st.owners && st.owners[o].closing
    requires !th.pc.Closing? && !Closes(th.pc, o)
    requires (forall x :: x in th.stack ==> OpenOwner(st, x)) && PcOk(pre, shared, st, th)
    ensures forall x :: x in th.stack ==> OpenOwner(st', x)
    ensures PcOk(pre, shared, st', th)
  {
    assert forall x :: OpenOwner(st, x) ==> x != o && st'.owners[x] == st.owners[x];
    assert th.stack != [] ==> Active(th).value in th.stack;
  }

  /** The threads part of the invariant after a step that shrinks `o`, given the caches. */
  lemma ShrinksThreads(pre: seq<Text>, shared: iset<OwnerId>, st: State, st': State, t: Tid, o: OwnerId)
    requires Inv(pre, shared, st) && t in st.threads && st.threads[t].pc.Closing? && st.threads[t].pc.owner == o
    requires Shrinks(pre, st, st', o)
    requires t in st'.threads && st'.threads == st.threads[t := st'.threads[t]]
    requires forall u :: u in st.threads ==> CacheOk(pre, st'.table, st'.released, st.threads[u].cache)
    requires ThreadOk(pre, shared, st', st'.threads[t])
    requires var pc := st'.threads[t].pc; pc.Idle? || (pc.Closing? && pc.owner == o)
    ensures ThreadsInv(pre, shared, st')
  {
    assert ThreadOk(pre, shared, st, st.threads[t]);
    forall u | u in st.threads && u != t
      ensures ThreadOk(pre, shared, st', st.threads[u])
      ensures Apart(st'.threads[t], st.threads[u]) && Apart(st.threads[u], st'.threads[t])
    {
      assert ThreadOk(pre, shared, st, st.threads[u]);
      assert Apart(st.threads[t], st.threads[u]) && Apart(st.threads[u], st.threads[t]);
      assert Closes(st.threads[t].pc, o);
      ShrinksPc(pre, shared, st, st', o, st.threads[u]);
    }
  }

  /** Dropping one owner keeps an entry exact; the last one cannot leave a claim behind. */
  lemma DisownExact(e: Entry, holders: set<OwnerId>, known: set<OwnerId>, o: OwnerId)
    requires EntryExact(e, holders, known) && o in holders
    ensures EntryExact(e.(owners := e.owners - 1), holders - {o}, known)
  {
  }

  /** Counts stay exact when `o` disowns `s`. */
  lemma DisownMemory(pre: seq<Text>, table: Table, owners: map<OwnerId, Owner>, o: OwnerId, s: Symbol)
    requires HoldsOnlyLive(pre, table, owners) && Counted(pre, table, owners) && SoleExact(pre, table, owners)
    requires o in owners && s in owners[o].symbols && IsLive(pre, table, s) && EntryOf(pre, table, s).owners > 0
    ensures var table' := Disown(pre, table, s);
            var owners' := owners[o := owners[o].(symbols := owners[o].symbols - {s})];
            HoldsOnlyLive(pre, table', owners') && Counted(pre, table', owners') && SoleExact(pre, table', owners')
  {
    var table' := Disown(pre, table, s);
    var owners' := owners[o := owners[o].(symbols := owners[o].symbols - {s})];
    assert forall r: Symbol :: IsLive(pre, table', r) == IsLive(pre, table, r);
    forall r: Symbol ensures Holders(owners', r) == Holders(owners, r) - (if r == s then {o} else {}) {
    }
    forall x, r | x in owners' && r in owners'[x].symbols ensures IsLive(pre, table', r) {
      assert r in owners[x].symbols;
    }
    forall r: Symbol | IsLive(pre, table', r)
      ensures EntryExact(EntryOf(pre, table', r), Holders(owners', r), owners'.Keys)
    {
      assert EntryExact(EntryOf(pre, table, r), Holders(owners, r), owners.Keys);
      if r == s {
        assert o in Holders(owners, s);
        DisownExact(EntryOf(pre, table, s), Holders(owners, s), owners.Keys, o);
      }
    }
  }

  /** Clearing a slot that nobody owns disturbs no other entry. */
  lemma ClearMemory(pre: seq<Text>, table: Table, owners: map<OwnerId, Owner>, s: Symbol)
    requires Valid(pre, table) && IsLive(pre, table, s) && EntryOf(pre, table, s).owners == 0
    requires HoldsOnlyLive(pre, table, owners) && Counted(pre, table, owners) && SoleExact(pre, table, owners)
    ensures var table' := Clear(pre, table, s);
            && HoldsOnlyLive(pre, table', owners) && Counted(pre, table', owners) && SoleExact(pre, table', owners)
            && (forall r: Symbol :: IsLive(pre, table', r) ==>
                  IsLive(pre, table, r) && r != s && EntryOf(pre, table', r) == EntryOf(pre, table, r))
    ensures forall o :: o in owners ==> s !in owners[o].symbols
  {
    var table' := Clear(pre, table, s);
    assert Holders(owners, s) == {};
    forall o | o in owners ensures s !in owners[o].symbols {
      assert o !in Holders(owners, s);
    }
    assert forall r: Symbol :: IsLive(pre, table', r) <==> IsLive(pre, table, r) && r != s;
  }

  /** What the thread that closes an owner knows. */
  lemma CloserReady(pre: seq<Text>, shared: iset<OwnerId>, st: State, t: Tid)
    requires Inv(pre, shared, st) && t in st.threads && st.threads[t].pc.Closing?
    ensures ThreadOk(pre, shared, st, st.threads[t])
    ensures var pc := st.threads[t].pc;
            && pc.owner in st.owners && st.owners[pc.owner].closing
            && (pc.counted.Some? ==> IsLive(pre, st.table, pc.counted.value)
                                     && EntryOf(pre, st.table, pc.counted.value).owners == 0)
  {
    assert ThreadOk(pre, shared, st, st.threads[t]);
  }

  lemma CachesOk(pre: seq<Text>, shared: iset<OwnerId>, st: State, u: Tid)
    requires Inv(pre, shared, st) && u in st.threads
    ensures CacheOk(pre, st.table, st.released, st.threads[u].cache)
  {
    assert ThreadOk(pre, shared, st, st.threads[u]);
  }

  /** What counting a release writes. */
  lemma CountReleaseWrites(pre: seq<Text>, st: State, t: Tid, s: Symbol)
    requires Enabled(pre, st, t, CountRelease(s))
    ensures t in st.threads && st.threads[t].pc.Closing? && st.threads[t].pc.counted.None?
    ensures IsLive(pre, st.table, s) && EntryOf(pre, st.table, s).owners > 0
    ensures var (th, st') := (st.threads[t], Step(pre, st, t, CountRelease(s)));
            var o := th.pc.owner;
            && o in st.owners && s in st.owners[o].symbols
            && st'.table == Disown(pre, st.table, s) && st'.clock == st.clock
            && st'.released == st.released + (if Frees(pre, st.table, s) then 1 else 0)
            && st'.owners == st.owners[o := st.owners[o].(symbols := st.owners[o].symbols - {s})]
            && st'.threads == st.threads[t := th.(pc := Closing(o, if Frees(pre, st.table, s) then Some(s) else None))]
  {
  }

  lemma CountReleaseKeeps(pre: seq<Text>, shared: iset<OwnerId>, st: State, t: Tid, s: Symbol)
    requires Inv(pre, shared, st) && Enabled(pre, st, t, CountRelease(s))
    ensures Inv(pre, shared, Step(pre, st, t, CountRelease(s)))
  {
    hide Step, Enabled, Valid, Holders, Counted, SoleExact, HoldsOnlyLive, UnownedIsCounted, ThreadsInv, OwnerOk;
    CountReleaseWrites(pre, st, t, s);
    CloserReady(pre, shared, st, t);
    var st' := Step(pre, st, t, CountRelease(s));
    var o := st.threads[t].pc.owner;
    DisownKeeps(pre, st.table, s);
    DisownMemory(pre, st.table, st.owners, o, s);
    assert Shrinks(pre, st, st', o);
    ShrinksOwners(pre, shared, st, st', o);
    CountReleaseUnowned(pre, shared, st, t, s);
    forall u | u in st.threads ensures CacheOk(pre, st'.table, st'.released, st.threads[u].cache) {
      CachesOk(pre, shared, st, u);
      CountReleaseCache(pre, st, s, st.threads[u].cache);
    }
    ShrinksThreads(pre, shared, st, st', t, o);
  }

  lemma CountReleaseUnowned(pre: seq<Text>, shared: iset<OwnerId>, st: State, t: Tid, s: Symbol)
    requires Inv(pre, shared, st) && Enabled(pre, st, t, CountRelease(s))
    ensures UnownedIsCounted(pre, Step(pre, st, t, CountRelease(s)))
  {
    var st' := Step(pre, st, t, CountRelease(s));
    forall r: Symbol | IsLive(pre, st'.table, r) && r != s ensures EntryOf(pre, st'.table, r).owners > 0 {
      OthersOwned(pre, shared, st, t, r);
    }
    assert EntryOf(pre, st'.table, s).owners == 0 ==> st'.threads[t].pc.counted == Some(s);
  }

  /** A cache that is current cannot hold a slot whose last release was just counted. */
  lemma CountReleaseCache(pre: seq<Text>, st: State, s: Symbol, c: Cache)
    requires IsLive(pre, st.table, s) && EntryOf(pre, st.table, s).owners > 0
    requires CacheOk(pre, st.table, st.released, c)
    ensures CacheOk(pre, Disown(pre, st.table, s), st.released + (if Frees(pre, st.table, s) then 1 else 0), c)
  {
  }

  /** What emptying a slot writes. */
  lemma ClearSlotWrites(pre: seq<Text>, st: State, t: Tid)
    requires Enabled(pre, st, t, ClearSlot)
    ensures t in st.threads && st.threads[t].pc.Closing? && st.threads[t].pc.counted.Some?
    ensures IsLive(pre, st.table, st.threads[t].pc.counted.value)
    ensures var (th, st') := (st.threads[t], Step(pre, st, t, ClearSlot));
            && st'.table == Clear(pre, st.table, th.pc.counted.value) && st'.clock == st.clock
            && st'.released == st.released && st'.owners == st.owners
            && st'.threads == st.threads[t := th.(pc := Closing(th.pc.owner, None))]
  {
  }

  lemma ClearSlotKeeps(pre: seq<Text>, shared: iset<OwnerId>, st: State, t: Tid)
    requires Inv(pre, shared, st) && Enabled(pre, st, t, ClearSlot)
    ensures Inv(pre, shared, Step(pre, st, t, ClearSlot))
  {
    hide Step, Enabled, Valid, Holders, Counted, SoleExact, ThreadsInv, OwnerOk, Clear;
    ClearSlotWrites(pre, st, t);
    CloserReady(pre, shared, st, t);
    var st' := Step(pre, st, t, ClearSlot);
    var o, s := st.threads[t].pc.owner, st.threads[t].pc.counted.value;
    ClearForgets(pre, st.table, s);
    ClearMemory(pre, st.table, st.owners, s);
    assert Shrinks(pre, st, st', o);
    ShrinksOwners(pre, shared, st, st', o);
    forall r: Symbol | IsLive(pre, st'.table, r) ensures EntryOf(pre, st'.table, r).owners > 0 {
      OthersOwned(pre, shared, st, t, r);
    }
    forall u | u in st.threads ensures CacheOk(pre, st'.table, st'.released, st.threads[u].cache) {
      CachesOk(pre, shared, st, u);
      ClearSlotCache(pre, st.table, s, st.released, st.threads[u].cache);
    }
    ShrinksThreads(pre, shared, st, st', t, o);
  }

  lemma ClearSlotCache(pre: seq<Text>, table: Table, s: Symbol, released: nat, c: Cache)
    requires IsLive(pre, table, s) && EntryOf(pre, table, s).owners == 0 && CacheOk(pre, table, released, c)
    ensures CacheOk(pre, Clear(pre, table, s), released, c)
  {
  }

  lemma FinishCloseKeeps(pre: seq<Text>, shared: iset<OwnerId>, st: State, t: Tid)
    requires Inv(pre, shared, st) && Enabled(pre, st, t, FinishClose)
    ensures Inv(pre, shared, Step(pre, st, t, FinishClose))
  {
    var st' := Step(pre, st, t, FinishClose);
    var o := st.threads[t].pc.owner;
    assert ThreadOk(pre, shared, st, st.threads[t]);
    forall s: Symbol ensures Holders(st'.owners, s) == Holders(st.owners, s) {
    }
    forall s: Symbol | IsLive(pre, st.table, s)
      ensures EntryOf(pre, st.table, s).owners > 0
      ensures EntryOf(pre, st.table, s).sole.Some? ==> EntryOf(pre, st.table, s).sole.value in st'.owners
    {
      OthersOwned(pre, shared, st, t, s);
      assert Holders(st.owners, s) != {};
      var x :| x in Holders(st.owners, s);
      assert x in st'.owners;
    }
    assert Shrinks(pre, st, st', o);
    ShrinksOwners(pre, shared, st, st', o);
    forall u | u in st.threads ensures CacheOk(pre, st'.table, st'.released, st.threads[u].cache) {
      assert ThreadOk(pre, shared, st, st.threads[u]);
    }
    ShrinksThreads(pre, shared, st, st', t, o);
  }

  // ----- Every step, every run -----

  lemma StepKeeps(pre: seq<Text>, shared: iset<OwnerId>, st: State, t: Tid, a: Action)
    requires Inv(pre, shared, st) && KeepsTo(shared, st) && Enabled(pre, st, t, a)
    ensures Inv(pre, shared, Step(pre, st, t, a))
  {
    hide *;
    match a
    case NewOwner(o) => NewOwnerKeeps(pre, shared, st, t, o);
    case CloneHandle(o) => CloneHandleKeeps(pre, shared, st, t, o);
    case DropHandle(o) => DropHandleKeeps(pre, shared, st, t, o);
    case Exit => ExitKeeps(pre, shared, st, t);
    case ReadTable => ReadTableKeeps(pre, shared, st, t);
    case Decide => DecideKeeps(pre, shared, st, t);
    case ReadOwner => ReadOwnerKeeps(pre, shared, st, t);
    case LockOwner => LockKeeps(pre, shared, st, t, a);
    case InternLocked => InternLockedKeeps(pre, shared, st, t);
    case UnlockOwner => UnlockOwnerKeeps(pre, shared, st, t);
    case LockOwnedSet => LockKeeps(pre, shared, st, t, a);
    case LoadCache => LoadCacheKeeps(pre, shared, st, t);
    case LockTable => LockKeeps(pre, shared, st, t, a);
    case CountRelease(s) => CountReleaseKeeps(pre, shared, st, t, s);
    case ClearSlot => ClearSlotKeeps(pre, shared, st, t);
    case FinishClose => FinishCloseKeeps(pre, shared, st, t);
    case _ => StartKeeps(pre, shared, st, t, a);
  }

  lemma {:induction false} RunKeeps(pre: seq<Text>, shared: iset<OwnerId>, st: State, run: seq<Label>)
    requires Inv(pre, shared, st) && Possible(pre, st, run) && RunKeepsTo(pre, shared, st, run)
    ensures Inv(pre, shared, After(pre, st, run))
    decreases |run|
  {
    if run != [] {
      StepKeeps(pre, shared, st, run[0].0, run[0].1);
      RunKeeps(pre, shared, Step(pre, st, run[0].0, run[0].1), run[1..]);
    }
  }
}
