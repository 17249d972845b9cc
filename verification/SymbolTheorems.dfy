/** What holds over every run of the symbol system. */
module SymbolTheorems {
  import opened Options
  import opened SymbolTable
  import opened SymbolSystem
  import opened SymbolInvariant

  predicate AnyOwner(o: OwnerId) { true }

  /** The policy under which every owner may be used by several threads at once. */
  ghost function Everyone(): iset<OwnerId> { iset o: OwnerId | AnyOwner(o) }

  lemma {:induction false} EveryRunKeepsToEveryone(pre: seq<Text>, st: State, run: seq<Label>)
    requires Possible(pre, st, run)
    ensures RunKeepsTo(pre, Everyone(), st, run)
    decreases |run|
  {
    forall o: OwnerId ensures o in Everyone() {
      assert AnyOwner(o);
    }
    if run != [] {
      EveryRunKeepsToEveryone(pre, Step(pre, st, run[0].0, run[0].1), run[1..]);
    }
  }

  /** A state some run leads to. */
  lemma ReachableInv(pre: seq<Text>, run: seq<Label>)
    requires Distinct(pre) && Possible(pre, Initial(pre), run)
    ensures Inv(pre, Everyone(), After(pre, Initial(pre), run))
  {
    InitialInv(pre, Everyone());
    EveryRunKeepsToEveryone(pre, Initial(pre), run);
    RunKeeps(pre, Everyone(), Initial(pre), run);
  }

  // ----- The interner's bookkeeping -----

  /** In every reachable state text map, slots and free list correspond exactly; a slot's
      owner count is the number of owners holding it; a sole-owner claim names an existing
      owner and nobody else holds the symbol; and unless a release is under way, the live
      slots are exactly those some owner holds. */
  lemma BookkeepingIsExact(pre: seq<Text>, run: seq<Label>)
    requires Distinct(pre) && Possible(pre, Initial(pre), run)
    ensures var st := After(pre, Initial(pre), run);
            && Valid(pre, st.table)
            && (forall s: Symbol :: IsLive(pre, st.table, s) ==>
                  var e := EntryOf(pre, st.table, s);
                  && e.owners == |Holders(st.owners, s)|
                  && (e.sole.Some? ==> e.sole.value in st.owners && Holders(st.owners, s) <= {e.sole.value}))
            && (TableFree(st) ==> forall s: Symbol :: IsLive(pre, st.table, s) <==> Holders(st.owners, s) != {})
  {
    ReachableInv(pre, run);
    var st := After(pre, Initial(pre), run);
    if TableFree(st) {
      forall s: Symbol ensures IsLive(pre, st.table, s) <==> Holders(st.owners, s) != {} {
        if IsLive(pre, st.table, s) {
          LiveIsOwned(pre, Everyone(), st, s);
        }
        assert forall o :: o in Holders(st.owners, s) ==> s in st.owners[o].symbols;
      }
    }
  }

  // ----- Spellings -----

  /** The steps that answer a request for spellings: a cache hit without a lock, and a load. */
  predicate Answers(pre: seq<Text>, st: State, t: Tid, a: Action)
    requires Enabled(pre, st, t, a)
  {
    (a.CheckCache? || a.LoadCache?) && Step(pre, st, t, a).threads[t].pc.Idle?
  }

  /** Every answer, the lock-free ones too, gives each symbol exactly the spelling its slot
      holds at that moment, and the invalid marker for an empty slot. */
  lemma SpellingsAreCurrent(pre: seq<Text>, run: seq<Label>, t: Tid, a: Action)
    requires Distinct(pre) && Possible(pre, Initial(pre), run)
    requires Enabled(pre, After(pre, Initial(pre), run), t, a) && Answers(pre, After(pre, Initial(pre), run), t, a)
    ensures var st := After(pre, Initial(pre), run);
            var r := Step(pre, st, t, a).threads[t].result;
            && r.Spellings? && r.symbols == st.threads[t].pc.symbols && |r.texts| == |r.symbols|
            && forall i :: 0 <= i < |r.symbols| ==> r.texts[i] == Resolve(pre, st.table, r.symbols[i])
  {
    ReachableInv(pre, run);
    AnswerIsCurrent(pre, Everyone(), After(pre, Initial(pre), run), t, a);
  }

  lemma AnswerIsCurrent(pre: seq<Text>, shared: iset<OwnerId>, st: State, t: Tid, a: Action)
    requires Inv(pre, shared, st) && Enabled(pre, st, t, a) && Answers(pre, st, t, a)
    ensures var r := Step(pre, st, t, a).threads[t].result;
            && r.Spellings? && r.symbols == st.threads[t].pc.symbols && |r.texts| == |r.symbols|
            && forall i :: 0 <= i < |r.symbols| ==> r.texts[i] == Resolve(pre, st.table, r.symbols[i])
  {
    hide Valid, HoldsOnlyLive, Counted, SoleExact, UnownedIsCounted, OwnerOk, Apart, LoadAll;
    var th := st.threads[t];
    assert ThreadOk(pre, shared, st, th);
    var cache := Step(pre, st, t, a).threads[t].cache;
    var symbols := th.pc.symbols;
    if a.LoadCache? {
      LoadOk(pre, shared, st, th.cache, symbols);
    }
    forall i | 0 <= i < |symbols| ensures ReadSpelling(pre, cache, symbols[i]) == Resolve(pre, st.table, symbols[i]) {
      var s := symbols[i];
      assert s in symbols;
      if !IsPreloaded(pre, s) && Shared(pre, cache, s).Some? {
        assert cache.bySlot[s - |pre|].Some?;
        assert |pre| + (s - |pre|) == s;
      }
    }
  }

  /** An open owner with its symbols, in an unchanged table. */
  ghost predicate Undisturbed(st: State, st': State, o: OwnerId) {
    && o in st.owners && o in st'.owners && st'.table == st.table
    && st'.owners[o].birth == st.owners[o].birth && st'.owners[o].symbols == st.owners[o].symbols
  }

  /** Steps that begin an operation enroll and release nothing. */
  lemma StartsUndisturbed(pre: seq<Text>, st: State, t: Tid, a: Action, o: OwnerId)
    requires Enabled(pre, st, t, a) && !Continues(a) && o in st.owners
    ensures Undisturbed(st, Step(pre, st, t, a), o)
  {
  }

  /** Nor do steps on the way through an interning or a reading. */
  lemma OperationsUndisturbed(pre: seq<Text>, st: State, t: Tid, a: Action, o: OwnerId)
    requires Enabled(pre, st, t, a) && Continues(a) && o in st.owners
    requires !a.InternLocked? && !a.CountRelease? && !a.ClearSlot? && !a.FinishClose?
    ensures Undisturbed(st, Step(pre, st, t, a), o)
  {
  }

  /** The end of closing touches one owner, and that is not open. */
  lemma FinishCloseUndisturbed(pre: seq<Text>, shared: iset<OwnerId>, st: State, t: Tid, o: OwnerId)
    requires Inv(pre, shared, st) && Enabled(pre, st, t, FinishClose) && OpenOwner(st, o)
    ensures Undisturbed(st, Step(pre, st, t, FinishClose), o)
  {
    CloserReady(pre, shared, st, t);
  }

  /** The same incarnation of `o` holds `s`, with the same spelling. */
  ghost predicate StillHeld(pre: seq<Text>, st: State, st': State, o: OwnerId, s: Symbol) {
    && o in st.owners && o in st'.owners && st'.owners[o].birth == st.owners[o].birth
    && s in st'.owners[o].symbols && TextOf(pre, st'.table, s) == TextOf(pre, st.table, s)
  }

  lemma HeldIntern(pre: seq<Text>, shared: iset<OwnerId>, st: State, t: Tid, o: OwnerId, s: Symbol)
    requires Inv(pre, shared, st) && Enabled(pre, st, t, InternLocked) && OpenOwner(st, o) && s in st.owners[o].symbols
    ensures StillHeld(pre, st, Step(pre, st, t, InternLocked), o, s)
  {
    hide Step, Enabled, ThreadsInv, Valid, Counted, SoleExact, PcOk;
    InternLockedGrows(pre, shared, st, t);
    assert IsLive(pre, st.table, s);
  }

  lemma HeldCount(pre: seq<Text>, shared: iset<OwnerId>, st: State, t: Tid, r: Symbol, o: OwnerId, s: Symbol)
    requires Inv(pre, shared, st) && Enabled(pre, st, t, CountRelease(r))
    requires OpenOwner(st, o) && s in st.owners[o].symbols
    ensures StillHeld(pre, st, Step(pre, st, t, CountRelease(r)), o, s)
  {
    hide Step, Enabled, ThreadsInv, Valid, Counted, SoleExact, Disown;
    CountReleaseWrites(pre, st, t, r);
    CloserReady(pre, shared, st, t);
    DisownKeeps(pre, st.table, r);
  }

  lemma HeldClear(pre: seq<Text>, shared: iset<OwnerId>, st: State, t: Tid, o: OwnerId, s: Symbol)
    requires Inv(pre, shared, st) && Enabled(pre, st, t, ClearSlot) && OpenOwner(st, o) && s in st.owners[o].symbols
    ensures StillHeld(pre, st, Step(pre, st, t, ClearSlot), o, s)
  {
    hide Step, Enabled, ThreadsInv, Valid, SoleExact, Clear;
    ClearSlotWrites(pre, st, t);
    CloserReady(pre, shared, st, t);
    var r := st.threads[t].pc.counted.value;
    assert o in Holders(st.owners, s);
    assert Holders(st.owners, r) == {};
    ClearForgets(pre, st.table, r);
  }

  lemma HeldElsewhere(pre: seq<Text>, shared: iset<OwnerId>, st: State, t: Tid, a: Action, o: OwnerId, s: Symbol)
    requires Inv(pre, shared, st) && Enabled(pre, st, t, a) && OpenOwner(st, o) && s in st.owners[o].symbols
    requires !a.InternLocked? && !a.CountRelease? && !a.ClearSlot?
    ensures StillHeld(pre, st, Step(pre, st, t, a), o, s)
  {
    hide Step, Enabled, Continues, Inv, TextOf;
    if a.FinishClose? {
      FinishCloseUndisturbed(pre, shared, st, t, o);
    } else if Continues(a) {
      OperationsUndisturbed(pre, st, t, a, o);
    } else {
      StartsUndisturbed(pre, st, t, a, o);
    }
  }

  /** One step: an owner that stays open keeps what it holds, spelled as it was. */
  lemma HeldStep(pre: seq<Text>, shared: iset<OwnerId>, st: State, t: Tid, a: Action, o: OwnerId, s: Symbol)
    requires Inv(pre, shared, st) && Enabled(pre, st, t, a) && OpenOwner(st, o) && s in st.owners[o].symbols
    ensures StillHeld(pre, st, Step(pre, st, t, a), o, s)
  {
    hide *;
    if a.InternLocked? {
      HeldIntern(pre, shared, st, t, o, s);
    } else if a.CountRelease? {
      HeldCount(pre, shared, st, t, a.symbol, o, s);
    } else if a.ClearSlot? {
      HeldClear(pre, shared, st, t, o, s);
    } else {
      HeldElsewhere(pre, shared, st, t, a, o, s);
    }
  }

  /** An owner's incarnation never comes back once it has begun to close. */
  predicate Incarnate(st: State, o: OwnerId, birth: nat) {
    o in st.owners && !st.owners[o].closing && st.owners[o].birth == birth
  }

  /** No owner is younger than the clock, older than it was, or open again. */
  ghost predicate Ages(st: State, st': State) {
    && st.clock <= st'.clock
    && forall o :: o in st'.owners ==>
         || (o in st.owners && st'.owners[o].birth == st.owners[o].birth
             && (st.owners[o].closing ==> st'.owners[o].closing))
         || (st'.owners[o].birth == st.clock && st.clock < st'.clock)
  }

  lemma HandlesAge(pre: seq<Text>, st: State, t: Tid, a: Action)
    requires Enabled(pre, st, t, a) && (a.NewOwner? || a.CloneHandle? || a.DropHandle? || a.Exit?)
    ensures Ages(st, Step(pre, st, t, a))
  {
  }

  lemma StartsAge(pre: seq<Text>, st: State, t: Tid, a: Action)
    requires Enabled(pre, st, t, a) && !Continues(a) && !a.NewOwner? && !a.CloneHandle? && !a.DropHandle? && !a.Exit?
    ensures Ages(st, Step(pre, st, t, a))
  {
    hide CloseIfLast;
  }

  lemma OperationsAge(pre: seq<Text>, st: State, t: Tid, a: Action)
    requires Enabled(pre, st, t, a) && Continues(a)
    ensures Ages(st, Step(pre, st, t, a))
  {
    hide Enroll, Disown, Clear, Load, ReadSpellings;
  }

  lemma GoneStep(pre: seq<Text>, st: State, t: Tid, a: Action, o: OwnerId, birth: nat)
    requires Enabled(pre, st, t, a) && birth < st.clock && !Incarnate(st, o, birth)
    ensures !Incarnate(Step(pre, st, t, a), o, birth) && birth < Step(pre, st, t, a).clock
  {
    hide Step, Enabled, Continues;
    if Continues(a) {
      OperationsAge(pre, st, t, a);
    } else if a.NewOwner? || a.CloneHandle? || a.DropHandle? || a.Exit? {
      HandlesAge(pre, st, t, a);
    } else {
      StartsAge(pre, st, t, a);
    }
  }

  lemma {:induction false} GoneForGood(pre: seq<Text>, st: State, run: seq<Label>, o: OwnerId, birth: nat)
    requires Possible(pre, st, run) && birth < st.clock && !Incarnate(st, o, birth)
    ensures !Incarnate(After(pre, st, run), o, birth)
    decreases |run|
  {
    if run != [] {
      GoneStep(pre, st, run[0].0, run[0].1, o, birth);
      GoneForGood(pre, Step(pre, st, run[0].0, run[0].1), run[1..], o, birth);
    }
  }

  /** A name an owner holds is held, with the same spelling, as long as that owner lives,
      through any number of drops, slot reuses and address reuses elsewhere. */
  lemma {:induction false} HeldNamesAreStable(pre: seq<Text>, st: State, run: seq<Label>, o: OwnerId, s: Symbol)
    requires Inv(pre, Everyone(), st) && Possible(pre, st, run)
    requires OpenOwner(st, o) && s in st.owners[o].symbols
    requires Incarnate(After(pre, st, run), o, st.owners[o].birth)
    ensures var st' := After(pre, st, run);
            s in st'.owners[o].symbols && TextOf(pre, st'.table, s) == TextOf(pre, st.table, s)
    decreases |run|
  {
    if run != [] {
      var (t, a) := run[0];
      var next := Step(pre, st, t, a);
      EveryRunKeepsToEveryone(pre, st, run);
      StepKeeps(pre, Everyone(), st, t, a);
      HeldStep(pre, Everyone(), st, t, a, o, s);
      assert OwnerOk(pre, Everyone(), st, o);
      if !Incarnate(next, o, st.owners[o].birth) {
        assert OwnerOk(pre, Everyone(), next, o);
        GoneForGood(pre, next, run[1..], o, st.owners[o].birth);
      } else {
        HeldNamesAreStable(pre, next, run[1..], o, s);
      }
    }
  }

  /** A thread that asks for the spelling of a name some owner holds, and is answered while that
      owner still lives, gets that name's spelling, whatever happened in between. */
  lemma LiveNameIsReadRight(pre: seq<Text>, before: seq<Label>, between: seq<Label>, t: Tid, a: Action,
                            o: OwnerId, s: Symbol, i: nat)
    requires Distinct(pre) && Possible(pre, Initial(pre), before)
    requires Possible(pre, After(pre, Initial(pre), before), between)
    requires var st := After(pre, Initial(pre), before);
             var now := After(pre, st, between);
             && OpenOwner(st, o) && s in st.owners[o].symbols && Incarnate(now, o, st.owners[o].birth)
             && Enabled(pre, now, t, a) && Answers(pre, now, t, a)
             && i < |now.threads[t].pc.symbols| && now.threads[t].pc.symbols[i] == s
    ensures var st := After(pre, Initial(pre), before);
            var r := Step(pre, After(pre, st, between), t, a).threads[t].result;
            r.Spellings? && i < |r.texts| && Some(r.texts[i]) == TextOf(pre, st.table, s)
  {
    var st := After(pre, Initial(pre), before);
    ReachableInv(pre, before);
    EveryRunKeepsToEveryone(pre, st, between);
    RunKeeps(pre, Everyone(), st, between);
    HeldNamesAreStable(pre, st, between, o, s);
    AnswerIsCurrent(pre, Everyone(), After(pre, st, between), t, a);
    assert IsLive(pre, st.table, s);
  }

  // ----- Interning -----

  /** The owner an interning operation works for. */
  function OwnerOfOp(th: Thread): Option<OwnerId> {
    match th.pc
    case WantOwner(o, _) => Some(o)
    case WantTable(o, _) => Some(o)
    case Interned(o, _, _) => Some(o)
    case _ => Active(th)
  }

  /** A step that ends a `Name::intern` or a `SymbolOwner::intern` with a name. */
  ghost predicate EndsIntern(pre: seq<Text>, st: State, t: Tid, a: Action) {
    && Enabled(pre, st, t, a) && (a.StartIntern? || a.Decide? || a.ReadOwner? || a.UnlockOwner?)
    && Step(pre, st, t, a).threads[t].pc.Idle? && Step(pre, st, t, a).threads[t].result.Named?
  }

  /** The text such a step has a name for. */
  function TextAsked(th: Thread, a: Action): Text
    requires a.StartIntern? || th.pc.Looked? || th.pc.CheckExisting? || th.pc.Interned?
  {
    if a.StartIntern? then a.text else th.pc.text
  }

  /** The name returned spells the text asked for. */
  ghost predicate AnswersRight(pre: seq<Text>, st: State, t: Tid, a: Action)
    requires EndsIntern(pre, st, t, a)
  {
    var st' := Step(pre, st, t, a);
    var r, x := st'.threads[t].result, TextAsked(st.threads[t], a);
    && r.text == x && TextOf(pre, st'.table, r.symbol) == Some(x)
    && (x in pre ==> r.symbol < |pre| && pre[r.symbol] == x)
  }

  /** The owner retains the name returned for it. */
  ghost predicate AnswersRetained(pre: seq<Text>, st: State, t: Tid, a: Action, o: OwnerId)
    requires EndsIntern(pre, st, t, a)
  {
    var st' := Step(pre, st, t, a);
    var r := st'.threads[t].result;
    && OpenOwner(st', o) && (IsPreloaded(pre, r.symbol) || r.symbol in st'.owners[o].symbols)
    && (r.symbol, r.text) in st'.owners[o].issued
  }

  /** An interning that returns for an unshared owner, as one step. */
  lemma InternStepReturns(pre: seq<Text>, shared: iset<OwnerId>, st: State, t: Tid, a: Action)
    requires Inv(pre, shared, st) && EndsIntern(pre, st, t, a) && !a.StartIntern?
    requires OwnerOfOp(st.threads[t]).Some? && OwnerOfOp(st.threads[t]).value !in shared
    ensures AnswersRight(pre, st, t, a) && AnswersRetained(pre, st, t, a, OwnerOfOp(st.threads[t]).value)
  {
    hide Valid, HoldsOnlyLive, Counted, SoleExact, UnownedIsCounted, CacheOk, Apart;
    var th := st.threads[t];
    assert ThreadOk(pre, shared, st, th);
    var st' := Step(pre, st, t, a);
    var o := OwnerOfOp(th).value;
    if a.Decide? {
      DecideKeeps(pre, shared, st, t);
    } else if a.ReadOwner? {
      ReadOwnerKeeps(pre, shared, st, t);
    } else {
      UnlockOwnerKeeps(pre, shared, st, t);
    }
    assert th.stack != [] ==> Active(th).value in th.stack;
    assert OwnerOk(pre, shared, st', o);
    SpelledOnce(pre, shared, st', st'.threads[t].result.symbol, th.pc.text);
  }

  /** A preloaded text is spelled by its preloaded symbol only. */
  lemma SpelledOnce(pre: seq<Text>, shared: iset<OwnerId>, st: State, s: Symbol, x: Text)
    requires Inv(pre, shared, st) && TextOf(pre, st.table, s) == Some(x)
    ensures x in pre ==> s < |pre| && pre[s] == x
  {
    if x in pre {
      var i :| 0 <= i < |pre| && pre[i] == x;
      assert TextOf(pre, st.table, i) == Some(x);
      assert Get(st.table, x) == Some(i) == Some(s);
    }
  }

  /** With no owner used by two threads at once except those in `shared`, an interning that
      returns a name returns one that spells the text: a preloaded one without asking anybody, and for
      any owner that is not shared one that it retains, by the sole-owner shortcut, from the owner's own
      set, or by a full intern. */
  lemma InternReturnsRetainedName(pre: seq<Text>, shared: iset<OwnerId>, run: seq<Label>, t: Tid, a: Action)
    requires Distinct(pre) && Possible(pre, Initial(pre), run) && RunKeepsTo(pre, shared, Initial(pre), run)
    requires EndsIntern(pre, After(pre, Initial(pre), run), t, a)
    requires var owner := OwnerOfOp(After(pre, Initial(pre), run).threads[t]);
             !a.StartIntern? ==> owner.Some? && owner.value !in shared
    ensures var st := After(pre, Initial(pre), run);
            && AnswersRight(pre, st, t, a)
            && (!a.StartIntern? ==> AnswersRetained(pre, st, t, a, OwnerOfOp(st.threads[t]).value))
  {
    hide *;
    InitialInv(pre, shared);
    RunKeeps(pre, shared, Initial(pre), run);
    var st := After(pre, Initial(pre), run);
    if a.StartIntern? {
      PreloadedAnswer(pre, st, t, a);
    } else {
      InternStepReturns(pre, shared, st, t, a);
    }
  }

  lemma PreloadedAnswer(pre: seq<Text>, st: State, t: Tid, a: Action)
    requires EndsIntern(pre, st, t, a) && a.StartIntern?
    ensures AnswersRight(pre, st, t, a)
  {
  }

  /** And it stays that way until the owner is dropped: whatever an unshared owner was ever
      given still spells its text and is still retained. */
  lemma IssuedNamesStayGood(pre: seq<Text>, shared: iset<OwnerId>, run: seq<Label>)
    requires Distinct(pre) && Possible(pre, Initial(pre), run) && RunKeepsTo(pre, shared, Initial(pre), run)
    ensures var st := After(pre, Initial(pre), run);
            forall o, s, x :: OpenOwner(st, o) && o !in shared && (s, x) in st.owners[o].issued ==>
                              TextOf(pre, st.table, s) == Some(x) && (IsPreloaded(pre, s) || s in st.owners[o].symbols)
  {
    hide Possible, RunKeepsTo, After, Initial, ThreadsInv, Valid, HoldsOnlyLive, Counted, SoleExact, UnownedIsCounted;
    InitialInv(pre, shared);
    RunKeeps(pre, shared, Initial(pre), run);
    var st := After(pre, Initial(pre), run);
    forall o, s, x | OpenOwner(st, o) && o !in shared && (s, x) in st.owners[o].issued ensures Good(pre, st, o, s, x) {
      assert OwnerOk(pre, shared, st, o);
    }
  }

  /** `lookup_owned` finds exactly the name the active owner retains under that text. */
  lemma LookupOwnedIsExact(pre: seq<Text>, run: seq<Label>, t: Tid)
    requires Distinct(pre) && Possible(pre, Initial(pre), run)
    requires Enabled(pre, After(pre, Initial(pre), run), t, ReadOwned)
    ensures var st := After(pre, Initial(pre), run);
            var text := st.threads[t].pc.text;
            var o := Active(st.threads[t]).value;
            var r := Step(pre, st, t, ReadOwned).threads[t].result;
            && r.Owned? && r.text == text
            && (forall s: Symbol :: r.found == Some(s) <==>
                                      TextOf(pre, st.table, s) == Some(text) && s in st.owners[o].symbols)
  {
    ReachableInv(pre, run);
    var st := After(pre, Initial(pre), run);
    forall s: Symbol | TextOf(pre, st.table, s).Some?
      ensures Get(st.table, TextOf(pre, st.table, s).value) == Some(s)
    {
    }
  }
}
