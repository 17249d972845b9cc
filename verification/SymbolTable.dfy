/** The process-wide symbol interner as one thread sees it: a slot table for
    dynamic names, a free list of reusable slots and a reverse text map.

    `Table` is the interner as a value. Class `Interner` is the mutable object,
    and each of its methods is tied to the value function of the same name. The
    preloaded names are a fixed sequence `pre`; symbol `i < |pre|` spells `pre[i]`
    and slot `i` of the table belongs to symbol `|pre| + i`. */
module SymbolTable {
  import opened Options

  /** The UTF-8 code units of a spelling, one `char` each. */
  type Text = string

  type Symbol = nat

  /** The address of an owner's allocation. It can be reused after the owner is gone. */
  type OwnerId = nat

  const MAX_SYMBOL: nat := 0xFFFF_FFFF
  const MAX_COUNT: nat := 0xFFFF_FFFF_FFFF_FFFF
  const INVALID_SYMBOL: Text := "<invalid-symbol>"

  datatype Entry = Entry(text: Text, owners: nat, sole: Option<OwnerId>)

  datatype Table = Table(byText: map<Text, Symbol>, slots: seq<Option<Entry>>, free: seq<nat>)

  ghost predicate Distinct<T(!new)>(s: seq<T>) {
    forall i, j :: 0 <= i < j < |s| ==> s[i] != s[j]
  }

  predicate IsPreloaded(pre: seq<Text>, s: Symbol) { s < |pre| }

  /** The lookup among preloaded names that needs no lock. */
  function PreloadedSymbol(pre: seq<Text>, text: Text): (r: Option<Symbol>)
    ensures r.Some? ==> r.value < |pre| && pre[r.value] == text
    ensures r.Some? <==> text in pre
  {
    if pre == [] then None
    else if pre[|pre| - 1] == text then Some(|pre| - 1)
    else PreloadedSymbol(pre[..|pre| - 1], text)
  }

  predicate IsLive(pre: seq<Text>, t: Table, s: Symbol) {
    |pre| <= s < |pre| + |t.slots| && t.slots[s - |pre|].Some?
  }

  function EntryOf(pre: seq<Text>, t: Table, s: Symbol): Entry
    requires IsLive(pre, t, s)
  {
    t.slots[s - |pre|].value
  }

  /** What a symbol spells now, if anything. */
  function TextOf(pre: seq<Text>, t: Table, s: Symbol): Option<Text> {
    if IsPreloaded(pre, s) then Some(pre[s])
    else if IsLive(pre, t, s) then Some(EntryOf(pre, t, s).text)
    else None
  }

  function SoleOwner(pre: seq<Text>, t: Table, s: Symbol): Option<OwnerId> {
    if IsLive(pre, t, s) then EntryOf(pre, t, s).sole else None
  }

  function Get(t: Table, text: Text): Option<Symbol> {
    if text in t.byText then Some(t.byText[text]) else None
  }

  // ----- The correspondence between text map, slots and free list -----

  /** Every entry of the text map is the spelling of its symbol. */
  ghost predicate MapSpells(pre: seq<Text>, t: Table) {
    forall x :: x in t.byText ==> TextOf(pre, t, t.byText[x]) == Some(x)
  }

  /** Every symbol that spells something is found under its spelling. */
  ghost predicate SpellingsMapped(pre: seq<Text>, t: Table) {
    forall s: Symbol :: TextOf(pre, t, s).Some? ==> Get(t, TextOf(pre, t, s).value) == Some(s)
  }

  /** The free list names each empty slot once and nothing else. */
  ghost predicate FreeExact(t: Table) {
    && Distinct(t.free)
    && (forall i :: i in t.free <==> 0 <= i < |t.slots| && t.slots[i].None?)
  }

  ghost predicate Valid(pre: seq<Text>, t: Table) {
    MapSpells(pre, t) && SpellingsMapped(pre, t) && FreeExact(t)
  }

  // ----- The operations -----

  function NextSlot(t: Table): nat {
    if t.free == [] then |t.slots| else t.free[|t.free| - 1]
  }

  function Intern(pre: seq<Text>, t: Table, text: Text): (Table, Symbol) {
    if text in t.byText then (t, t.byText[text])
    else
      var i := NextSlot(t);
      var entry := Some(Entry(text, 0, None));
      (Table(t.byText[text := |pre| + i],
             if i < |t.slots| then t.slots[i := entry] else t.slots + [entry],
             if t.free == [] then [] else t.free[..|t.free| - 1]),
       |pre| + i)
  }

  /** The id space is 32 bits wide. Running out of it panics before anything is written. */
  predicate InternPanics(pre: seq<Text>, t: Table, text: Text) {
    text !in t.byText && |pre| + NextSlot(t) > MAX_SYMBOL
  }

  /** The sole-owner claim of an entry that `owner` also retains. */
  function Claim(e: Entry, owner: OwnerId): Option<OwnerId> {
    if e.owners == 0 then Some(owner) else if e.sole != Some(owner) then None else e.sole
  }

  function Retain(pre: seq<Text>, t: Table, s: Symbol, owner: OwnerId): Table {
    if !IsLive(pre, t, s) then t
    else
      var e := EntryOf(pre, t, s);
      t.(slots := t.slots[s - |pre| := Some(Entry(e.text, e.owners + 1, Claim(e, owner)))])
  }

  predicate RetainPanics(pre: seq<Text>, t: Table, s: Symbol) {
    IsLive(pre, t, s) && EntryOf(pre, t, s).owners >= MAX_COUNT
  }

  /** What a retain that panics leaves behind: the claim is settled before the count overflows. */
  function Claimed(pre: seq<Text>, t: Table, s: Symbol, owner: OwnerId): Table
    requires IsLive(pre, t, s)
  {
    var e := EntryOf(pre, t, s);
    t.(slots := t.slots[s - |pre| := Some(e.(sole := Claim(e, owner)))])
  }

  /** The first half of `release`: one owner fewer. */
  function Disown(pre: seq<Text>, t: Table, s: Symbol): Table
    requires IsLive(pre, t, s) && EntryOf(pre, t, s).owners > 0
  {
    var e := EntryOf(pre, t, s);
    t.(slots := t.slots[s - |pre| := Some(e.(owners := e.owners - 1))])
  }

  /** The second half of `release`: an ownerless slot is emptied and made reusable. */
  function Clear(pre: seq<Text>, t: Table, s: Symbol): Table
    requires IsLive(pre, t, s)
  {
    Table(t.byText - {EntryOf(pre, t, s).text}, t.slots[s - |pre| := None], t.free + [s - |pre|])
  }

  predicate ReleasePanics(pre: seq<Text>, t: Table, s: Symbol) {
    IsLive(pre, t, s) && EntryOf(pre, t, s).owners == 0
  }

  /** Whether a release of `s` returns its slot. */
  predicate Frees(pre: seq<Text>, t: Table, s: Symbol) {
    IsLive(pre, t, s) && EntryOf(pre, t, s).owners == 1
  }

  function Release(pre: seq<Text>, t: Table, s: Symbol): Table
    requires !ReleasePanics(pre, t, s)
  {
    if !IsLive(pre, t, s) then t
    else if Frees(pre, t, s) then Clear(pre, Disown(pre, t, s), s)
    else Disown(pre, t, s)
  }

  // ----- What the operations do to spellings -----

  /** Interning is canonical: the result spells the text, every other symbol keeps its
      spelling, and a text that was already there changes nothing. */
  lemma InternSpells(pre: seq<Text>, t: Table, text: Text)
    requires Valid(pre, t)
    ensures var (t', s) := Intern(pre, t, text);
            && Valid(pre, t')
            && TextOf(pre, t', s) == Some(text)
            && (forall r: Symbol :: r != s ==> TextOf(pre, t', r) == TextOf(pre, t, r))
            && (TextOf(pre, t, s).Some? <==> text in t.byText)
            && (TextOf(pre, t, s).Some? ==> t' == t)
  {
    var (t', s) := Intern(pre, t, text);
    if text !in t.byText {
      var i := NextSlot(t);
      assert i == |t.slots| || (i in t.free && t.slots[i].None?);
      assert TextOf(pre, t, s).None?;
      forall r: Symbol | r != s ensures TextOf(pre, t', r) == TextOf(pre, t, r) {
      }
      forall r: Symbol | TextOf(pre, t', r).Some? ensures Get(t', TextOf(pre, t', r).value) == Some(r) {
        if r != s {
          assert Get(t, TextOf(pre, t, r).value) == Some(r);
        }
      }
      InternFree(pre, t, text);
    }
  }

  /** Popping a free index removes it and nothing else. */
  lemma PopFree(free: seq<nat>)
    requires Distinct(free) && free != []
    ensures var front, last := free[..|free| - 1], free[|free| - 1];
            Distinct(front) && forall i :: i in front <==> i in free && i != last
  {
  }

  lemma InternFree(pre: seq<Text>, t: Table, text: Text)
    requires FreeExact(t) && text !in t.byText
    ensures FreeExact(Intern(pre, t, text).0)
  {
    var t' := Intern(pre, t, text).0;
    if t.free == [] {
      assert forall i :: 0 <= i < |t.slots| ==> i !in t.free;
      assert forall i :: 0 <= i < |t'.slots| ==> t'.slots[i].Some?;
    } else {
      PopFree(t.free);
      var last := t.free[|t.free| - 1];
      assert last in t.free;
      assert |t'.slots| == |t.slots| && forall i :: 0 <= i < |t.slots| && i != last ==> t'.slots[i] == t.slots[i];
    }
  }

  /** One owner more, and a claim of sole ownership only for `owner`, if nobody else has joined it. */
  predicate Joined(e: Entry, e': Entry, owner: OwnerId) {
    && e'.text == e.text && e'.owners == e.owners + 1
    && (e'.sole.Some? <==> e.owners == 0 || e.sole == Some(owner))
    && (e'.sole.Some? ==> e'.sole == Some(owner))
  }

  /** Retaining counts one owner more; the claim of sole ownership stays with an owner only while
      nobody else has retained the symbol. No other entry and no spelling changes. */
  lemma RetainCounts(pre: seq<Text>, t: Table, s: Symbol, owner: OwnerId)
    requires Valid(pre, t)
    ensures Valid(pre, Retain(pre, t, s, owner))
    ensures !IsLive(pre, t, s) ==> Retain(pre, t, s, owner) == t
    ensures forall r: Symbol :: IsLive(pre, Retain(pre, t, s, owner), r) == IsLive(pre, t, r)
    ensures forall r: Symbol :: TextOf(pre, Retain(pre, t, s, owner), r) == TextOf(pre, t, r)
    ensures IsLive(pre, t, s) ==> Joined(EntryOf(pre, t, s), EntryOf(pre, Retain(pre, t, s, owner), s), owner)
    ensures forall r: Symbol :: r != s && IsLive(pre, t, r) ==>
              EntryOf(pre, Retain(pre, t, s, owner), r) == EntryOf(pre, t, r)
  {
    RetainKeeps(pre, t, s, owner);
  }

  lemma RetainKeeps(pre: seq<Text>, t: Table, s: Symbol, owner: OwnerId)
    requires Valid(pre, t)
    ensures Valid(pre, Retain(pre, t, s, owner))
    ensures forall r: Symbol :: TextOf(pre, Retain(pre, t, s, owner), r) == TextOf(pre, t, r)
  {
  }

  lemma ClaimedKeeps(pre: seq<Text>, t: Table, s: Symbol, owner: OwnerId)
    requires Valid(pre, t)
    ensures IsLive(pre, t, s) ==> Valid(pre, Claimed(pre, t, s, owner))
  {
    if IsLive(pre, t, s) {
      var t' := Claimed(pre, t, s, owner);
      assert forall r: Symbol :: TextOf(pre, t', r) == TextOf(pre, t, r);
    }
  }

  lemma DisownKeeps(pre: seq<Text>, t: Table, s: Symbol)
    requires Valid(pre, t) && IsLive(pre, t, s) && EntryOf(pre, t, s).owners > 0
    ensures Valid(pre, Disown(pre, t, s))
    ensures forall r: Symbol :: TextOf(pre, Disown(pre, t, s), r) == TextOf(pre, t, r)
  {
  }

  /** Clearing takes away exactly one spelling. */
  lemma ClearForgets(pre: seq<Text>, t: Table, s: Symbol)
    requires Valid(pre, t) && IsLive(pre, t, s)
    ensures var t' := Clear(pre, t, s);
            && Valid(pre, t')
            && TextOf(pre, t', s) == None
            && (forall r: Symbol :: r != s ==> TextOf(pre, t', r) == TextOf(pre, t, r))
            && Get(t', EntryOf(pre, t, s).text) == None
  {
    var t' := Clear(pre, t, s);
    var text := EntryOf(pre, t, s).text;
    assert TextOf(pre, t, s) == Some(text);
    forall x | x in t'.byText ensures TextOf(pre, t', t'.byText[x]) == Some(x) {
      assert TextOf(pre, t, t.byText[x]) == Some(x);
    }
    forall r: Symbol | TextOf(pre, t', r).Some? ensures Get(t', TextOf(pre, t', r).value) == Some(r) {
      assert Get(t, TextOf(pre, t, r).value) == Some(r);
    }
    assert s - |pre| !in t.free;
    assert FreeExact(t');
  }

  // ----- Names as values: spelling tests and order -----

  /** What reading a symbol's spelling returns when the table does not change meanwhile. */
  function Resolve(pre: seq<Text>, t: Table, s: Symbol): Text {
    match TextOf(pre, t, s)
    case Some(x) => x
    case None => INVALID_SYMBOL
  }

  /** `Name::spelled`, with its shortcut for preloaded texts. */
  predicate Spelled(pre: seq<Text>, t: Table, s: Symbol, text: Text) {
    if IsPreloaded(pre, s) then pre[s] == text
    else if text in pre then false
    else Resolve(pre, t, s) == text
  }

  lemma SpelledIsText(pre: seq<Text>, t: Table, s: Symbol, text: Text)
    requires Valid(pre, t) && TextOf(pre, t, s).Some?
    ensures Spelled(pre, t, s, text) <==> TextOf(pre, t, s) == Some(text)
    ensures Spelled(pre, t, s, text) <==> Get(t, text) == Some(s)
  {
    if !IsPreloaded(pre, s) && text in pre {
      var i :| 0 <= i < |pre| && pre[i] == text;
      assert TextOf(pre, t, i) == Some(text);
      assert Get(t, text) == Some(i);
    }
  }

  datatype Ordering = Less | Equal | Greater

  function Flip(o: Ordering): Ordering {
    match o
    case Less => Greater
    case Equal => Equal
    case Greater => Less
  }

  /** Lexicographic comparison of code units. */
  function CompareText(a: Text, b: Text): Ordering {
    if a == [] then if b == [] then Equal else Less
    else if b == [] then Greater
    else if a[0] < b[0] then Less
    else if b[0] < a[0] then Greater
    else CompareText(a[1..], b[1..])
  }

  /** `Name::cmp`, branch by branch. */
  function CompareNames(pre: seq<Text>, t: Table, a: Symbol, b: Symbol): Ordering {
    if a == b then Equal
    else if IsPreloaded(pre, a) && IsPreloaded(pre, b) then CompareText(pre[a], pre[b])
    else if IsPreloaded(pre, a) then CompareText(pre[a], Resolve(pre, t, b))
    else if IsPreloaded(pre, b) then CompareText(Resolve(pre, t, a), pre[b])
    else CompareText(Resolve(pre, t, a), Resolve(pre, t, b))
  }

  lemma {:induction false} CompareTextOrder(a: Text, b: Text)
    ensures CompareText(a, b) == Equal <==> a == b
    ensures CompareText(b, a) == Flip(CompareText(a, b))
  {
    if a != [] && b != [] {
      CompareTextOrder(a[1..], b[1..]);
      assert a == [a[0]] + a[1..] && b == [b[0]] + b[1..];
    }
  }

  lemma {:induction false} CompareTextTransitive(a: Text, b: Text, c: Text)
    requires CompareText(a, b) != Greater && CompareText(b, c) != Greater
    ensures CompareText(a, c) != Greater
  {
    if a != [] && b != [] && c != [] && a[0] == b[0] == c[0] {
      CompareTextTransitive(a[1..], b[1..], c[1..]);
    }
  }

  /** The order of dictionaries: after a common beginning one text ends first, or goes on with the
      smaller unit. */
  ghost predicate FirstDifference(a: Text, b: Text, n: nat) {
    && n <= |a| && n <= |b| && a[..n] == b[..n]
    && (n == |a| < |b| || (n < |a| && n < |b| && a[n] < b[n]))
  }

  ghost predicate Precedes(a: Text, b: Text) {
    exists n: nat :: FirstDifference(a, b, n)
  }

  lemma AgreeAtFirst(a: Text, b: Text, n: nat)
    requires n <= |a| && n <= |b| && a[..n] == b[..n]
    ensures n > 0 ==> a[0] == b[0]
  {
    if n > 0 {
      assert a[0] == a[..n][0] && b[0] == b[..n][0];
    }
  }

  lemma {:induction false} LessIsPrecedes(a: Text, b: Text)
    ensures CompareText(a, b) == Less <==> Precedes(a, b)
  {
    if a != [] && b != [] && a[0] == b[0] {
      LessIsPrecedes(a[1..], b[1..]);
      forall n: nat ensures FirstDifference(a[1..], b[1..], n) <==> FirstDifference(a, b, n + 1) {
        if n <= |a[1..]| && n <= |b[1..]| {
          assert a[..n + 1] == [a[0]] + a[1..][..n] && b[..n + 1] == [b[0]] + b[1..][..n];
          assert a[..n + 1][1..] == a[1..][..n] && b[..n + 1][1..] == b[1..][..n];
        }
      }
      assert !FirstDifference(a, b, 0);
      if Precedes(a, b) {
        var n: nat :| FirstDifference(a, b, n);
        assert FirstDifference(a[1..], b[1..], n - 1);
      }
    } else {
      assert FirstDifference(a, b, 0) <==> CompareText(a, b) == Less;
      if a != [] && b != [] {
        forall n: nat | n <= |a| && n <= |b| && a[..n] == b[..n] ensures n == 0 {
          AgreeAtFirst(a, b, n);
        }
      }
    }
  }

  /** Over live names `cmp` is a total order, agrees with the dictionary order of spellings, and says
      `Equal` exactly for equal symbols, whatever mix of preloaded and dynamic names it meets. */
  lemma NameOrderIsTotal(pre: seq<Text>, t: Table, a: Symbol, b: Symbol, c: Symbol)
    requires Valid(pre, t)
    requires TextOf(pre, t, a).Some? && TextOf(pre, t, b).Some? && TextOf(pre, t, c).Some?
    ensures CompareNames(pre, t, a, b) == Less <==> Precedes(TextOf(pre, t, a).value, TextOf(pre, t, b).value)
    ensures CompareNames(pre, t, a, b) == Greater <==> Precedes(TextOf(pre, t, b).value, TextOf(pre, t, a).value)
    ensures CompareNames(pre, t, a, b) == Equal <==> a == b
    ensures CompareNames(pre, t, b, a) == Flip(CompareNames(pre, t, a, b))
    ensures CompareNames(pre, t, a, b) != Greater && CompareNames(pre, t, b, c) != Greater
            ==> CompareNames(pre, t, a, c) != Greater
  {
    var x, y, z := TextOf(pre, t, a).value, TextOf(pre, t, b).value, TextOf(pre, t, c).value;
    assert Get(t, x) == Some(a) && Get(t, y) == Some(b) && Get(t, z) == Some(c);
    CompareTextOrder(x, y);
    CompareTextOrder(x, x);
    CompareTextOrder(y, z);
    CompareTextOrder(x, z);
    LessIsPrecedes(x, y);
    LessIsPrecedes(y, x);
    if CompareText(x, y) != Greater && CompareText(y, z) != Greater {
      CompareTextTransitive(x, y, z);
    }
  }

  // ----- The slot table never grows past its peak load -----

  datatype Op = OpIntern(text: Text) | OpRetain(symbol: Symbol, owner: OwnerId) | OpRelease(symbol: Symbol)

  predicate Panics(pre: seq<Text>, t: Table, op: Op) {
    match op
    case OpIntern(text) => InternPanics(pre, t, text)
    case OpRetain(s, _) => RetainPanics(pre, t, s)
    case OpRelease(s) => ReleasePanics(pre, t, s)
  }

  function Apply(pre: seq<Text>, t: Table, op: Op): Table
    requires !Panics(pre, t, op)
  {
    match op
    case OpIntern(text) => Intern(pre, t, text).0
    case OpRetain(s, o) => Retain(pre, t, s, o)
    case OpRelease(s) => Release(pre, t, s)
  }

  function Preloaded(pre: seq<Text>): (t: Table)
    requires Distinct(pre)
    ensures Valid(pre, t)
  {
    var t := Table(map i | 0 <= i < |pre| :: pre[i] := i, [], []);
    assert forall i :: 0 <= i < |pre| ==> pre[i] in t.byText && t.byText[pre[i]] == i;
    t
  }

  /** The table after a history of operations, or `None` once one of them panicked. */
  function Run(pre: seq<Text>, ops: seq<Op>): Option<Table>
    requires Distinct(pre)
  {
    if ops == [] then Some(Preloaded(pre))
    else
      var before := Run(pre, ops[..|ops| - 1]);
      if before.None? || Panics(pre, before.value, ops[|ops| - 1]) then None
      else Some(Apply(pre, before.value, ops[|ops| - 1]))
  }

  function LiveSlots(t: Table): set<nat> {
    set i: nat | i < |t.slots| && t.slots[i].Some?
  }

  /** The greatest number of dynamic symbols that were live at once in a history. */
  function PeakLoad(pre: seq<Text>, ops: seq<Op>): nat
    requires Distinct(pre) && Run(pre, ops).Some?
  {
    var now := |LiveSlots(Run(pre, ops).value)|;
    if ops == [] then now
    else
      var before := PeakLoad(pre, ops[..|ops| - 1]);
      if now > before then now else before
  }

  ghost function Below(n: nat): (r: set<nat>)
    ensures |r| == n && forall i: nat :: i in r <==> i < n
  {
    if n == 0 then {} else Below(n - 1) + {n - 1}
  }

  ghost function Elements(s: seq<nat>): set<nat> { set x | x in s }

  lemma {:induction false} DistinctSize(s: seq<nat>)
    requires Distinct(s)
    ensures |Elements(s)| == |s|
  {
    if s != [] {
      var front, last := s[..|s| - 1], s[|s| - 1];
      DistinctSize(front);
      assert s == front + [last];
      assert Elements(s) == Elements(front) + {last};
      assert last !in front;
    }
  }

  /** Every slot is either live or on the free list, and there once. */
  lemma LiveAndFree(t: Table)
    requires FreeExact(t)
    ensures LiveSlots(t) !! Elements(t.free) && LiveSlots(t) + Elements(t.free) == Below(|t.slots|)
    ensures |Elements(t.free)| == |t.free|
  {
    var free := Elements(t.free);
    DistinctSize(t.free);
    assert LiveSlots(t) + free == Below(|t.slots|);
    assert LiveSlots(t) !! free;
  }

  lemma SizesAddUp(t: Table)
    requires FreeExact(t)
    ensures |LiveSlots(t)| + |t.free| == |t.slots|
  {
    LiveAndFree(t);
  }

  lemma ApplyKeepsValid(pre: seq<Text>, t: Table, op: Op)
    requires Valid(pre, t) && !Panics(pre, t, op)
    ensures Valid(pre, Apply(pre, t, op))
  {
    match op
    case OpIntern(text) => InternSpells(pre, t, text);
    case OpRetain(s, o) => RetainKeeps(pre, t, s, o);
    case OpRelease(s) =>
      if IsLive(pre, t, s) {
        DisownKeeps(pre, t, s);
        if Frees(pre, t, s) {
          ClearForgets(pre, Disown(pre, t, s), s);
        }
      }
  }

  /** A slot is only ever added when every existing one is in use, so over every history the
      table is exactly as long as the peak number of live symbols. */
  lemma {:induction false} TableLengthIsPeakLoad(pre: seq<Text>, ops: seq<Op>)
    requires Distinct(pre) && Run(pre, ops).Some?
    ensures Valid(pre, Run(pre, ops).value)
    ensures |Run(pre, ops).value.slots| == PeakLoad(pre, ops)
  {
    var t' := Run(pre, ops).value;
    if ops == [] {
      assert LiveSlots(t') == {};
    } else {
      var op := ops[|ops| - 1];
      var t := Run(pre, ops[..|ops| - 1]).value;
      TableLengthIsPeakLoad(pre, ops[..|ops| - 1]);
      ApplyKeepsValid(pre, t, op);
      SizesAddUp(t);
      SizesAddUp(t');
      assert t.free != [] ==> NextSlot(t) in t.free;
    }
  }

  // ----- The mutable interner -----

  /** The interner object. `released` is the process-wide counter of returned slots. */
  class Interner {
    const pre: seq<Text>
    var byText: map<Text, Symbol>
    var dynamic: seq<Option<Entry>>
    var freeDynamic: seq<nat>
    var released: nat

    ghost function State(): Table
      reads this
    {
      Table(byText, dynamic, freeDynamic)
    }

    constructor WithPreloaded(pre: seq<Text>)
      requires Distinct(pre)
      ensures this.pre == pre && State() == Preloaded(pre) && Valid(pre, State()) && released == 0
    {
      this.pre := pre;
      byText, dynamic, freeDynamic, released := map[], [], [], 0;
      new;
      for index := 0 to |pre|
        invariant this.pre == pre && dynamic == [] && freeDynamic == [] && released == 0
        invariant byText == map i | 0 <= i < index :: pre[i] := i
      {
        byText := byText[pre[index] := index];
      }
    }

    method Lookup(text: Text) returns (r: Option<Symbol>)
      requires Valid(pre, State())
      ensures r.Some? ==> TextOf(pre, State(), r.value) == Some(text)
      ensures r.None? ==> forall s: Symbol :: TextOf(pre, State(), s) != Some(text)
    {
      r := if text in byText then Some(byText[text]) else None;
    }

    /** `None` is the panic of an exhausted id space. */
    method InternText(text: Text) returns (r: Option<Symbol>)
      requires Valid(pre, State())
      modifies this`byText, this`dynamic, this`freeDynamic
      ensures Valid(pre, State())
      ensures r.None? <==> old(InternPanics(pre, State(), text))
      ensures r.None? ==> State() == old(State())
      ensures r.Some? ==> (State(), r.value) == Intern(pre, old(State()), text)
    {
      InternSpells(pre, State(), text);
      if text in byText {
        return Some(byText[text]);
      }
      var index := |dynamic|;
      if freeDynamic != [] {
        index := freeDynamic[|freeDynamic| - 1];
        assert index in freeDynamic;
      }
      if |pre| + index > MAX_SYMBOL {
        return None;
      }
      if freeDynamic != [] {
        freeDynamic := freeDynamic[..|freeDynamic| - 1];
      }
      var symbol := |pre| + index;
      var entry := Entry(text, 0, None);
      if index < |dynamic| {
        dynamic := dynamic[index := Some(entry)];
      } else {
        dynamic := dynamic + [Some(entry)];
      }
      byText := byText[text := symbol];
      r := Some(symbol);
    }

    method RetainSymbol(symbol: Symbol, owner: OwnerId) returns (panicked: bool)
      requires Valid(pre, State())
      modifies this`dynamic
      ensures Valid(pre, State())
      ensures panicked <==> old(RetainPanics(pre, State(), symbol))
      ensures !panicked ==> State() == Retain(pre, old(State()), symbol, owner)
      ensures panicked ==> State() == Claimed(pre, old(State()), symbol, owner)
    {
      hide Valid;
      RetainKeeps(pre, State(), symbol, owner);
      ClaimedKeeps(pre, State(), symbol, owner);
      if !(|pre| <= symbol < |pre| + |dynamic|) || dynamic[symbol - |pre|].None? {
        return false;
      }
      var index := symbol - |pre|;
      var entry := dynamic[index].value;
      if entry.owners == 0 {
        entry := entry.(sole := Some(owner));
      } else if entry.sole != Some(owner) {
        entry := entry.(sole := None);
      }
      dynamic := dynamic[index := Some(entry)];
      assert State() == Claimed(pre, old(State()), symbol, owner);
      if entry.owners >= MAX_COUNT {
        return true;
      }
      entry := entry.(owners := entry.owners + 1);
      dynamic := dynamic[index := Some(entry)];
      assert State() == Retain(pre, old(State()), symbol, owner);
      return false;
    }

    /** The counter moves exactly when a slot is returned, and before the slot is emptied. */
    method ReleaseSymbol(symbol: Symbol) returns (panicked: bool)
      requires Valid(pre, State())
      modifies this
      ensures Valid(pre, State())
      ensures panicked <==> old(ReleasePanics(pre, State(), symbol))
      ensures panicked ==> State() == old(State()) && released == old(released)
      ensures !panicked ==> State() == Release(pre, old(State()), symbol)
      ensures !panicked ==> released == old(released) + (if old(Frees(pre, State(), symbol)) then 1 else 0)
    {
      if !(|pre| <= symbol < |pre| + |dynamic|) || dynamic[symbol - |pre|].None? {
        return false;
      }
      var index := symbol - |pre|;
      var entry := dynamic[index].value;
      if entry.owners == 0 {
        return true;
      }
      DisownKeeps(pre, State(), symbol);
      entry := entry.(owners := entry.owners - 1);
      dynamic := dynamic[index := Some(entry)];
      if entry.owners != 0 {
        return false;
      }
      ClearForgets(pre, State(), symbol);
      released := released + 1;
      dynamic := dynamic[index := None];
      byText := byText - {entry.text};
      freeDynamic := freeDynamic + [index];
      return false;
    }
  }
}
