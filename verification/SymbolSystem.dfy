/** Threads, symbol owners, the shared interner and the per-thread spelling caches as a
    transition system.

    A step ends where a thread takes or drops a lock, or touches the release counter, which
    lock-free readers see. A critical section that waits for nothing and does not touch
    the counter is one step. A lock is held by the thread whose program counter says so.
    Dropping the last handle of an owner releases its symbols one at a time under the
    interner's write lock, and the release of a slot's last owner is two steps: count, then
    clear.

    `Owner.birth`, `Owner.issued`, `Owner.closing`, `State.clock` and `Thread.result` are
    history: the rules never read them, except that `closing` keeps a dying owner from use. */
module SymbolSystem {
  import opened Options
  import opened SymbolTable

  type Tid = nat

  /** `external` counts handles outside enter scopes. `symbols` loses a symbol when its
      release begins. `issued` records what interning returned on behalf of this owner, and
      `birth` tells owners apart that live at the same address one after the other. */
  datatype Owner = Owner(symbols: set<Symbol>, external: nat, birth: nat, closing: bool, issued: set<(Symbol, Text)>)

  datatype Cache = Cache(count: nat, bySlot: seq<Option<Text>>)

  datatype Result =
    | NoResult
    | Panicked
    | Named(symbol: Symbol, text: Text)
    | Owned(text: Text, found: Option<Symbol>)
    | Spellings(symbols: seq<Symbol>, texts: seq<Text>)

  datatype Pc =
    | Idle
    // Name::intern
    | Lookup(text: Text)
    | Looked(text: Text, found: Option<(Symbol, Option<OwnerId>)>)
    | CheckExisting(text: Text, symbol: Symbol)
    // SymbolOwner::intern: wants the owner's write lock, then also the interner's
    | WantOwner(owner: OwnerId, text: Text)
    | WantTable(owner: OwnerId, text: Text)
    | Interned(owner: OwnerId, text: Text, symbol: Symbol)
    // Name::lookup_owned: wants the owner's read lock, then also the interner's
    | OwnedWantOwner(text: Text)
    | OwnedWantTable(text: Text)
    // reading spellings through the thread's cache
    | Resolving(symbols: seq<Symbol>)
    | WantLoad(symbols: seq<Symbol>)
    // the last handle of an owner is gone
    | WantClose(owner: OwnerId)
    | Closing(owner: OwnerId, counted: Option<Symbol>)

  /** `stack` is the chain of entered owners; its last element is the active one. */
  datatype Thread = Thread(stack: seq<OwnerId>, pc: Pc, cache: Cache, result: Result)

  datatype State = State(
    table: Table,
    released: nat,
    owners: map<OwnerId, Owner>,
    threads: map<Tid, Thread>,
    clock: nat)

  datatype Action =
    | Spawn
    | ForgetCache
    | NewOwner(owner: OwnerId)
    | CloneHandle(owner: OwnerId)
    | DropHandle(owner: OwnerId)
    | Enter(owner: OwnerId)
    | Exit
    | StartIntern(text: Text)
    | StartOwnerIntern(owner: OwnerId, text: Text)
    | StartLookupOwned(text: Text)
    | StartResolve(symbols: seq<Symbol>)
    | ReadTable
    | Decide
    | ReadOwner
    | LockOwner
    | InternLocked
    | UnlockOwner
    | LockOwnedSet
    | ReadOwned
    | CheckCache
    | LoadCache
    | LockTable
    | CountRelease(symbol: Symbol)
    | ClearSlot
    | FinishClose

  // ----- Who holds and who uses what -----

  function Active(th: Thread): Option<OwnerId> {
    if th.stack == [] then None else Some(th.stack[|th.stack| - 1])
  }

  predicate InternsFor(pc: Pc, o: OwnerId) {
    (pc.WantOwner? || pc.WantTable? || pc.Interned?) && pc.owner == o
  }

  predicate Closes(pc: Pc, o: OwnerId) {
    (pc.WantClose? || pc.Closing?) && pc.owner == o
  }

  /** A thread uses the owners it has entered and the one it is interning for. */
  predicate Uses(th: Thread, o: OwnerId) {
    o in th.stack || InternsFor(th.pc, o)
  }

  /** Interning on a handle from outside any enter scope borrows that handle. */
  predicate Borrows(th: Thread, o: OwnerId) {
    InternsFor(th.pc, o) && o !in th.stack
  }

  predicate HoldsOwnerWrite(th: Thread, o: OwnerId) {
    (th.pc.WantTable? || th.pc.Interned?) && th.pc.owner == o
  }

  predicate HoldsOwnerRead(th: Thread, o: OwnerId) {
    th.pc.OwnedWantTable? && Active(th) == Some(o)
  }

  predicate TableFree(st: State) {
    forall u :: u in st.threads ==> !st.threads[u].pc.Closing?
  }

  predicate OwnerReadable(st: State, o: OwnerId) {
    forall u :: u in st.threads ==> !HoldsOwnerWrite(st.threads[u], o)
  }

  predicate OwnerFree(st: State, o: OwnerId) {
    forall u :: u in st.threads ==> !HoldsOwnerWrite(st.threads[u], o) && !HoldsOwnerRead(st.threads[u], o)
  }

  predicate Unused(threads: map<Tid, Thread>, o: OwnerId) {
    forall u :: u in threads ==> !Uses(threads[u], o)
  }

  predicate HasHandle(st: State, t: Tid, o: OwnerId)
    requires t in st.threads
  {
    o in st.owners && !st.owners[o].closing && (st.owners[o].external > 0 || o in st.threads[t].stack)
  }

  // ----- The spelling cache -----

  function Shared(pre: seq<Text>, c: Cache, s: Symbol): Option<Text> {
    if s < |pre| || s - |pre| >= |c.bySlot| then None else c.bySlot[s - |pre|]
  }

  predicate AllShared(pre: seq<Text>, c: Cache, symbols: seq<Symbol>) {
    forall s :: s in symbols ==> Shared(pre, c, s).Some?
  }

  /** `resize(n, None)`, which the source only calls to grow. */
  function Grow(slots: seq<Option<Text>>, n: nat): seq<Option<Text>> {
    if n <= |slots| then slots else slots + seq(n - |slots|, _ => None)
  }

  /** One round of the loop in `load`. */
  function LoadOne(pre: seq<Text>, t: Table, c: Cache, s: Symbol): Cache {
    if !IsLive(pre, t, s) then c
    else
      var slots := Grow(c.bySlot, s - |pre| + 1);
      c.(bySlot := if slots[s - |pre|].None? then slots[s - |pre| := Some(EntryOf(pre, t, s).text)] else slots)
  }

  function LoadAll(pre: seq<Text>, t: Table, c: Cache, symbols: seq<Symbol>): Cache
    decreases |symbols|
  {
    if symbols == [] then c
    else LoadAll(pre, t, LoadOne(pre, t, c, symbols[0]), symbols[1..])
  }

  /** The slow path of `load`: copies older than the last release go, missing ones are made. */
  function Load(pre: seq<Text>, t: Table, released: nat, c: Cache, symbols: seq<Symbol>): Cache {
    LoadAll(pre, t, if c.count != released then Cache(released, []) else c, symbols)
  }

  function ReadSpelling(pre: seq<Text>, c: Cache, s: Symbol): Text {
    if IsPreloaded(pre, s) then pre[s]
    else match Shared(pre, c, s) case Some(x) => x case None => INVALID_SYMBOL
  }

  function ReadSpellings(pre: seq<Text>, c: Cache, symbols: seq<Symbol>): seq<Text> {
    seq(|symbols|, i requires 0 <= i < |symbols| => ReadSpelling(pre, c, symbols[i]))
  }

  // ----- Steps -----

  /** Actions that continue an operation in progress; the others need an idle thread. */
  predicate Continues(a: Action) {
    match a
    case ReadTable => true
    case Decide => true
    case ReadOwner => true
    case LockOwner => true
    case InternLocked => true
    case UnlockOwner => true
    case LockOwnedSet => true
    case ReadOwned => true
    case CheckCache => true
    case LoadCache => true
    case LockTable => true
    case CountRelease(_) => true
    case ClearSlot => true
    case FinishClose => true
    case _ => false
  }

  predicate Enabled(pre: seq<Text>, st: State, t: Tid, a: Action) {
    if a.Spawn? then t !in st.threads
    else if t !in st.threads then false
    else
      var th := st.threads[t];
      && (!Continues(a) ==> th.pc.Idle?)
      && match a
         case Spawn => false
         case ForgetCache => true
         case NewOwner(o) => o != 0 && o !in st.owners
         case CloneHandle(o) => HasHandle(st, t, o)
         case DropHandle(o) =>
           && o in st.owners && st.owners[o].external > 0
           && (st.owners[o].external > 1 || forall u :: u in st.threads ==> !Borrows(st.threads[u], o))
         case Enter(o) => HasHandle(st, t, o)
         case Exit => th.stack != []
         case StartIntern(_) => true
         case StartOwnerIntern(o, _) => HasHandle(st, t, o)
         case StartLookupOwned(_) => true
         case StartResolve(_) => true
         case ReadTable => th.pc.Lookup? && TableFree(st)
         case Decide => th.pc.Looked?
         case ReadOwner => th.pc.CheckExisting? && Active(th).Some? && OwnerReadable(st, Active(th).value)
                           && Active(th).value in st.owners
         case LockOwner => th.pc.WantOwner? && OwnerFree(st, th.pc.owner)
         case InternLocked => th.pc.WantTable? && TableFree(st) && th.pc.owner in st.owners
         case UnlockOwner => th.pc.Interned? && th.pc.owner in st.owners
         case LockOwnedSet => th.pc.OwnedWantOwner? && Active(th).Some? && OwnerReadable(st, Active(th).value)
         case ReadOwned => th.pc.OwnedWantTable? && TableFree(st) && Active(th).Some?
                           && Active(th).value in st.owners
         case CheckCache => th.pc.Resolving?
         case LoadCache => th.pc.WantLoad? && TableFree(st)
         case LockTable => th.pc.WantClose? && TableFree(st)
         case CountRelease(s) =>
           && th.pc.Closing? && th.pc.counted.None?
           && th.pc.owner in st.owners && s in st.owners[th.pc.owner].symbols
           && IsLive(pre, st.table, s) && EntryOf(pre, st.table, s).owners > 0
         case ClearSlot => th.pc.Closing? && th.pc.counted.Some? && IsLive(pre, st.table, th.pc.counted.value)
         case FinishClose =>
           && th.pc.Closing? && th.pc.counted.None?
           && th.pc.owner in st.owners && st.owners[th.pc.owner].symbols == {}
  }

  function SetThread(st: State, t: Tid, th: Thread): State {
    st.(threads := st.threads[t := th])
  }

  function SetPc(st: State, t: Tid, pc: Pc): State
    requires t in st.threads
  {
    SetThread(st, t, st.threads[t].(pc := pc))
  }

  function Finish(st: State, t: Tid, r: Result): State
    requires t in st.threads
  {
    SetThread(st, t, st.threads[t].(pc := Idle, result := r))
  }

  function SetOwner(st: State, o: OwnerId, ow: Owner): State {
    st.(owners := st.owners[o := ow])
  }

  /** An interning operation for `o` returns `s` for `text`. */
  function Issue(st: State, t: Tid, o: OwnerId, s: Symbol, text: Text): State
    requires t in st.threads && o in st.owners
  {
    SetOwner(Finish(st, t, Named(s, text)), o,
             st.owners[o].(issued := st.owners[o].issued + {(s, text)}))
  }

  /** After a handle of `o` went away: the last one starts the release of its symbols. */
  function CloseIfLast(st: State, t: Tid, o: OwnerId): State
    requires t in st.threads && o in st.owners
  {
    if st.owners[o].external == 0 && Unused(st.threads, o)
    then SetPc(SetOwner(st, o, st.owners[o].(closing := true)), t, WantClose(o))
    else st
  }

  /** `SymbolOwner::intern` under both locks: table and owner set afterwards, and the symbol. */
  function Enroll(pre: seq<Text>, table: Table, symbols: set<Symbol>, o: OwnerId, text: Text)
    : (Table, set<Symbol>, Symbol)
  {
    var (table', s) := Intern(pre, table, text);
    if !IsPreloaded(pre, s) && s !in symbols
    then (Retain(pre, table', s, o), symbols + {s}, s)
    else (table', symbols, s)
  }

  /** `Name::intern` once the interner's read guard is gone. */
  function DecideIntern(pre: seq<Text>, st: State, t: Tid): State
    requires t in st.threads && st.threads[t].pc.Looked?
  {
    var th := st.threads[t];
    var text := th.pc.text;
    match th.pc.found
    case None =>
      if Active(th).None? then Finish(st, t, Panicked)
      else SetPc(st, t, WantOwner(Active(th).value, text))
    case Some((s, sole)) =>
      if IsPreloaded(pre, s) then Finish(st, t, Named(s, text))
      else if Active(th).None? || Active(th).value !in st.owners then Finish(st, t, Panicked)
      else if sole == Active(th) then Issue(st, t, Active(th).value, s, text)
      else SetPc(st, t, CheckExisting(text, s))
  }

  function Step(pre: seq<Text>, st: State, t: Tid, a: Action): State
    requires Enabled(pre, st, t, a)
  {
    if a.Spawn? then SetThread(st, t, Thread([], Idle, Cache(0, []), NoResult))
    else
      var th := st.threads[t];
      match a
      case Spawn => st
      case ForgetCache => SetThread(st, t, th.(cache := Cache(0, [])))
      case NewOwner(o) => SetOwner(st, o, Owner({}, 1, st.clock, false, {})).(clock := st.clock + 1)
      case CloneHandle(o) => SetOwner(st, o, st.owners[o].(external := st.owners[o].external + 1))
      case DropHandle(o) => CloseIfLast(SetOwner(st, o, st.owners[o].(external := st.owners[o].external - 1)), t, o)
      case Enter(o) => SetThread(st, t, th.(stack := th.stack + [o]))
      case Exit =>
        var o := Active(th).value;
        var popped := SetThread(st, t, th.(stack := th.stack[..|th.stack| - 1]));
        if o in popped.owners then CloseIfLast(popped, t, o) else popped
      case StartIntern(text) =>
        (match PreloadedSymbol(pre, text)
         case Some(s) => Finish(st, t, Named(s, text))
         case None => SetPc(st, t, Lookup(text)))
      case StartOwnerIntern(o, text) => SetPc(st, t, WantOwner(o, text))
      case StartLookupOwned(text) =>
        if PreloadedSymbol(pre, text).Some? then Finish(st, t, Owned(text, PreloadedSymbol(pre, text)))
        else if th.stack == [] then Finish(st, t, Owned(text, None))
        else SetPc(st, t, OwnedWantOwner(text))
      case StartResolve(symbols) => SetPc(st, t, Resolving(symbols))
      case ReadTable =>
        var text := th.pc.text;
        SetPc(st, t, Looked(text, match Get(st.table, text)
                                  case None => None
                                  case Some(s) => Some((s, SoleOwner(pre, st.table, s)))))
      case Decide => DecideIntern(pre, st, t)
      case ReadOwner =>
        var o := Active(th).value;
        if th.pc.symbol in st.owners[o].symbols then Issue(st, t, o, th.pc.symbol, th.pc.text)
        else SetPc(st, t, WantOwner(o, th.pc.text))
      case LockOwner => SetPc(st, t, WantTable(th.pc.owner, th.pc.text))
      case InternLocked =>
        var o := th.pc.owner;
        var (table, symbols, s) := Enroll(pre, st.table, st.owners[o].symbols, o, th.pc.text);
        SetOwner(SetPc(st, t, Interned(o, th.pc.text, s)), o, st.owners[o].(symbols := symbols)).(table := table)
      case UnlockOwner => Issue(st, t, th.pc.owner, th.pc.symbol, th.pc.text)
      case LockOwnedSet => SetPc(st, t, OwnedWantTable(th.pc.text))
      case ReadOwned =>
        var found := Get(st.table, th.pc.text);
        Finish(st, t, Owned(th.pc.text,
                            if found.Some? && found.value in st.owners[Active(th).value].symbols then found else None))
      case CheckCache =>
        if th.cache.count == st.released && AllShared(pre, th.cache, th.pc.symbols)
        then Finish(st, t, Spellings(th.pc.symbols, ReadSpellings(pre, th.cache, th.pc.symbols)))
        else SetPc(st, t, WantLoad(th.pc.symbols))
      case LoadCache =>
        var cache := Load(pre, st.table, st.released, th.cache, th.pc.symbols);
        SetThread(st, t, th.(cache := cache, pc := Idle,
                             result := Spellings(th.pc.symbols, ReadSpellings(pre, cache, th.pc.symbols))))
      case LockTable => SetPc(st, t, Closing(th.pc.owner, None))
      case CountRelease(s) =>
        var o := th.pc.owner;
        var last := Frees(pre, st.table, s);
        SetOwner(SetPc(st, t, Closing(o, if last then Some(s) else None)), o,
                 st.owners[o].(symbols := st.owners[o].symbols - {s}))
        .(table := Disown(pre, st.table, s), released := st.released + if last then 1 else 0)
      case ClearSlot =>
        SetPc(st, t, Closing(th.pc.owner, None)).(table := Clear(pre, st.table, th.pc.counted.value))
      case FinishClose =>
        Finish(st, t, NoResult).(owners := st.owners - {th.pc.owner})
  }

  // ----- Runs -----

  function Initial(pre: seq<Text>): State
    requires Distinct(pre)
  {
    State(Preloaded(pre), 0, map[], map[], 0)
  }

  type Label = (Tid, Action)

  /** Whether every label of a run is enabled where it occurs. */
  predicate Possible(pre: seq<Text>, st: State, run: seq<Label>)
    decreases |run|
  {
    run == [] ||
    (Enabled(pre, st, run[0].0, run[0].1) && Possible(pre, Step(pre, st, run[0].0, run[0].1), run[1..]))
  }

  function After(pre: seq<Text>, st: State, run: seq<Label>): State
    requires Possible(pre, st, run)
    decreases |run|
  {
    if run == [] then st else After(pre, Step(pre, st, run[0].0, run[0].1), run[1..])
  }

  /** Only owners in `shared` are used by several threads at once. */
  ghost predicate KeepsTo(shared: iset<OwnerId>, st: State) {
    forall t, u, o ::
      (t in st.threads && u in st.threads && t != u && Uses(st.threads[t], o) && Uses(st.threads[u], o)) ==>
        o in shared
  }

  /** A run in which only owners in `shared` are ever used by several threads at once. */
  ghost predicate RunKeepsTo(pre: seq<Text>, shared: iset<OwnerId>, st: State, run: seq<Label>)
    requires Possible(pre, st, run)
    decreases |run|
  {
    KeepsTo(shared, st) &&
    (run == [] || RunKeepsTo(pre, shared, Step(pre, st, run[0].0, run[0].1), run[1..]))
  }
}
