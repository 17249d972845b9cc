/** The mutable objects around the interner, as one thread at a time runs them: a symbol owner
    and a thread's spelling cache. The step model shares their specification functions. */
module SymbolObjects {
  import opened Options
  import opened SymbolTable
  import opened SymbolSystem

  /** What dropping an owner does to one symbol: nothing, or one owner fewer and an empty slot
      if that was the last one. */
  ghost predicate DroppedAt(pre: seq<Text>, before: Table, after: Table, s: Symbol, dropped: bool) {
    if !IsLive(pre, before, s) then !IsLive(pre, after, s)
    else if dropped && Frees(pre, before, s) then !IsLive(pre, after, s)
    else
      var e := EntryOf(pre, before, s);
      && (dropped ==> e.owners > 0)
      && IsLive(pre, after, s)
      && EntryOf(pre, after, s) == if dropped then e.(owners := e.owners - 1) else e
  }

  ghost predicate DroppedFrom(pre: seq<Text>, before: Table, after: Table, symbols: set<Symbol>) {
    forall s: Symbol :: DroppedAt(pre, before, after, s, s in symbols)
  }

  ghost function FreedOf(pre: seq<Text>, t: Table, symbols: set<Symbol>): set<Symbol> {
    set s | s in symbols && Frees(pre, t, s)
  }

  /** Releasing one more symbol. */
  lemma DroppedOneMore(pre: seq<Text>, before: Table, mid: Table, done: set<Symbol>, s: Symbol)
    requires DroppedFrom(pre, before, mid, done) && s !in done
    requires IsLive(pre, before, s) && EntryOf(pre, before, s).owners > 0
    ensures IsLive(pre, mid, s) && EntryOf(pre, mid, s) == EntryOf(pre, before, s)
    ensures DroppedFrom(pre, before, Release(pre, mid, s), done + {s})
    ensures FreedOf(pre, before, done + {s}) == FreedOf(pre, before, done) + (if Frees(pre, mid, s) then {s} else {})
  {
  }

  lemma NothingDropped(pre: seq<Text>, t: Table)
    ensures DroppedFrom(pre, t, t, {}) && FreedOf(pre, t, {}) == {}
  {
  }

  /** A freed symbol is counted once. */
  lemma OneMoreFreed(pre: seq<Text>, before: Table, mid: Table, done: set<Symbol>, s: Symbol)
    requires s !in done
    requires FreedOf(pre, before, done + {s}) == FreedOf(pre, before, done) + (if Frees(pre, mid, s) then {s} else {})
    ensures |FreedOf(pre, before, done + {s})| == |FreedOf(pre, before, done)| + if Frees(pre, mid, s) then 1 else 0
  {
  }

  /** Interning for an owner runs out of ids, or of owner counts for a symbol new to the owner. */
  predicate EnrollPanics(pre: seq<Text>, table: Table, symbols: set<Symbol>, text: Text) {
    || InternPanics(pre, table, text)
    || (var (table', s) := Intern(pre, table, text);
        !IsPreloaded(pre, s) && s !in symbols && RetainPanics(pre, table', s))
  }

  class SymbolOwner {
    const identity: OwnerId
    var symbols: set<Symbol>

    constructor (identity: OwnerId)
      ensures this.identity == identity && symbols == {}
    {
      this.identity := identity;
      symbols := {};
    }

    /** `None` is a panic of the interner. */
    method Intern(interner: Interner, text: Text) returns (r: Option<Symbol>)
      requires Valid(interner.pre, interner.State())
      modifies this, interner
      ensures Valid(interner.pre, interner.State()) && interner.released == old(interner.released)
      ensures r.None? <==> old(EnrollPanics(interner.pre, interner.State(), symbols, text))
      ensures r.Some? ==> (interner.State(), symbols, r.value)
                          == Enroll(interner.pre, old(interner.State()), old(symbols), identity, text)
      ensures r.Some? ==> TextOf(interner.pre, interner.State(), r.value) == Some(text)
      ensures r.Some? ==> IsPreloaded(interner.pre, r.value) || r.value in symbols
    {
      InternSpells(interner.pre, interner.State(), text);
      r := interner.InternText(text);
      if r.None? {
        return;
      }
      var s := r.value;
      if !IsPreloaded(interner.pre, s) && s !in symbols {
        RetainKeeps(interner.pre, interner.State(), s, identity);
        var panicked := interner.RetainSymbol(s, identity);
        if panicked {
          return None;
        }
        symbols := symbols + {s};
      }
    }

    /** Trusts `symbol` when the owner's set contains it. */
    method InternExisting(interner: Interner, text: Text, symbol: Symbol) returns (r: Option<Symbol>)
      requires Valid(interner.pre, interner.State())
      modifies this, interner
      ensures Valid(interner.pre, interner.State()) && interner.released == old(interner.released)
      ensures old(symbol !in symbols) ==>
                (r.None? <==> old(EnrollPanics(interner.pre, interner.State(), symbols, text)))
      ensures old(symbol in symbols) ==> r == Some(symbol) && symbols == old(symbols)
                                         && interner.State() == old(interner.State())
      ensures old(symbol !in symbols) && r.Some? ==>
                (interner.State(), symbols, r.value)
                == Enroll(interner.pre, old(interner.State()), old(symbols), identity, text)
    {
      if symbol in symbols {
        return Some(symbol);
      }
      r := Intern(interner, text);
    }

    /** The destructor, which holds the interner throughout. */
    method Drop(interner: Interner) returns (panicked: bool)
      requires Valid(interner.pre, interner.State())
      requires forall s :: s in symbols ==> IsLive(interner.pre, interner.State(), s)
                                            && EntryOf(interner.pre, interner.State(), s).owners > 0
      modifies interner
      ensures !panicked && Valid(interner.pre, interner.State())
      ensures DroppedFrom(interner.pre, old(interner.State()), interner.State(), symbols)
      ensures interner.released == old(interner.released) + |FreedOf(interner.pre, old(interner.State()), symbols)|
    {
      hide DroppedFrom, FreedOf, Release, Valid;
      ghost var before := interner.State();
      var remaining := symbols;
      NothingDropped(interner.pre, before);
      assert symbols - symbols == {};
      while remaining != {}
        invariant remaining <= symbols && Valid(interner.pre, interner.State())
        invariant DroppedFrom(interner.pre, before, interner.State(), symbols - remaining)
        invariant interner.released
                  == old(interner.released) + |FreedOf(interner.pre, before, symbols - remaining)|
        decreases |remaining|
      {
        var s :| s in remaining;
        DroppedOneMore(interner.pre, before, interner.State(), symbols - remaining, s);
        OneMoreFreed(interner.pre, before, interner.State(), symbols - remaining, s);
        assert symbols - (remaining - {s}) == (symbols - remaining) + {s};
        var bad := interner.ReleaseSymbol(s);
        assert !bad;
        remaining := remaining - {s};
      }
      assert symbols - remaining == symbols;
      return false;
    }
  }

  class DynamicSpellings {
    var releasedSlots: nat
    var bySlot: seq<Option<Text>>

    ghost function State(): Cache
      reads this
    {
      Cache(releasedSlots, bySlot)
    }

    constructor ()
      ensures State() == Cache(0, [])
    {
      releasedSlots, bySlot := 0, [];
    }

    /** Whether every requested symbol has a copy. */
    method HasAll(pre: seq<Text>, symbols: seq<Symbol>) returns (all: bool)
      ensures all == AllShared(pre, State(), symbols)
    {
      for i := 0 to |symbols|
        invariant forall j :: 0 <= j < i ==> Shared(pre, State(), symbols[j]).Some?
      {
        var k := symbols[i] - |pre|;
        if k < 0 || k >= |bySlot| || bySlot[k].None? {
          assert symbols[i] in symbols;
          return false;
        }
      }
      return true;
    }

    /** After a load the requested live symbols have copies; a cache that is still current and
        complete is left alone. */
    method Load(interner: Interner, symbols: seq<Symbol>)
      modifies this
      ensures State() == if old(State()).count == interner.released && AllShared(interner.pre, old(State()), symbols)
                         then old(State())
                         else SymbolSystem.Load(interner.pre, interner.State(), interner.released, old(State()),
                                                symbols)
    {
      hide AllShared, Shared;
      if releasedSlots == interner.released {
        var all := HasAll(interner.pre, symbols);
        if all {
          return;
        }
      }
      if releasedSlots != interner.released {
        bySlot := [];
        releasedSlots := interner.released;
      }
      ghost var start := State();
      for i := 0 to |symbols|
        invariant LoadAll(interner.pre, interner.State(), State(), symbols[i..])
                  == LoadAll(interner.pre, interner.State(), start, symbols)
      {
        ghost var now := State();
        var s := symbols[i];
        assert symbols[i..][0] == s && symbols[i..][1..] == symbols[i + 1..];
        if |interner.pre| <= s && s - |interner.pre| < |interner.dynamic|
           && interner.dynamic[s - |interner.pre|].Some? {
          var index := s - |interner.pre|;
          if |bySlot| <= index {
            bySlot := bySlot + seq(index + 1 - |bySlot|, _ => None);
          }
          if bySlot[index].None? {
            bySlot := bySlot[index := Some(interner.dynamic[index].value.text)];
          }
        }
        assert State() == LoadOne(interner.pre, interner.State(), now, s);
      }
    }
  }
}
