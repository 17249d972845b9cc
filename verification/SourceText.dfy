/** Lines and columns of a source file: positions are byte offsets, columns count scalars. */
module SourceText {
  import opened Options
  import opened Utf8

  // ----- Line starts -----

  /** Where lines start: at 0 and after every newline. */
  function Starts<T(==)>(s: seq<T>, newline: T): (starts: seq<nat>)
    ensures starts != [] && starts[0] == 0
    ensures forall i :: 0 <= i < |starts| ==> starts[i] <= |s|
    ensures forall i, j :: 0 <= i < j < |starts| ==> starts[i] < starts[j]
  {
    if s == [] then [0]
    else
      var front := Starts(s[..|s| - 1], newline);
      if s[|s| - 1] == newline then front + [|s|] else front
  }

  function Last(starts: seq<nat>): nat
    requires starts != []
  {
    starts[|starts| - 1]
  }

  /** The starts of a prefix come first; all others lie behind it. */
  lemma {:induction false} StartsOfPrefix<T>(s: seq<T>, newline: T, k: nat)
    requires k <= |s|
    ensures Starts(s[..k], newline) <= Starts(s, newline)
    ensures forall i :: |Starts(s[..k], newline)| <= i < |Starts(s, newline)| ==> Starts(s, newline)[i] > k
  {
    if k == |s| {
      assert s[..k] == s;
    } else {
      var front := s[..|s| - 1];
      StartsOfPrefix(front, newline, k);
      assert front[..k] == s[..k];
    }
  }

  lemma {:induction false} StartsWithout<T>(a: seq<T>, b: seq<T>, newline: T)
    requires newline !in b
    ensures Starts(a + b, newline) == Starts(a, newline)
  {
    if b == [] {
      assert a + b == a;
    } else {
      var front := b[..|b| - 1];
      assert (a + b)[..|a + b| - 1] == a + front && (a + b)[|a + b| - 1] == b[|b| - 1];
      StartsWithout(a, front, newline);
    }
  }

  /** Nothing after the last start is a newline, and it is at a newline's end or at 0. */
  lemma {:induction false} LastStart<T>(s: seq<T>, newline: T)
    ensures var start := Last(Starts(s, newline));
            newline !in s[start..] && (start > 0 ==> s[start - 1] == newline)
  {
    if s != [] {
      var front := s[..|s| - 1];
      LastStart(front, newline);
      var start := Last(Starts(front, newline));
      assert s[|s| - 1] != newline ==> s[start..] == front[start..] + [s[|s| - 1]];
    }
  }

  function Occurrences<T(==)>(s: seq<T>, x: T): nat {
    if s == [] then 0 else (if s[0] == x then 1 else 0) + Occurrences(s[1..], x)
  }

  lemma {:induction false} OccurrencesFromEnd<T>(s: seq<T>, c: T, x: T)
    ensures Occurrences(s + [c], x) == Occurrences(s, x) + if c == x then 1 else 0
  {
    if s == [] {
      assert s + [c] == [c] && [c][1..] == [];
    } else {
      assert (s + [c])[1..] == s[1..] + [c];
      OccurrencesFromEnd(s[1..], c, x);
    }
  }

  lemma {:induction false} LinesAreNewlines<T>(s: seq<T>, newline: T)
    ensures |Starts(s, newline)| == 1 + Occurrences(s, newline)
  {
    if s != [] {
      var front, c := s[..|s| - 1], s[|s| - 1];
      assert s == front + [c];
      LinesAreNewlines(front, newline);
      OccurrencesFromEnd(front, c, newline);
    }
  }

  /** Bytes and scalars start the same lines. */
  lemma {:induction false} StartsAlign(text: string)
    ensures |Starts(Encode(text), NEWLINE)| == |Starts(text, '\n')|
    ensures forall i :: 0 <= i < |Starts(text, '\n')| ==>
              At(text, Starts(text, '\n')[i], Starts(Encode(text), NEWLINE)[i])
  {
    if text != [] {
      var front, c := text[..|text| - 1], text[|text| - 1];
      assert text == front + [c];
      StartsAlign(front);
      EncodeJoins(front, [c]);
      assert Encode([c]) == EncodeChar(c) + [] == EncodeChar(c);
      if c == '\n' {
        assert EncodeChar(c) == [NEWLINE];
        assert Encode(text)[..Width(text) - 1] == Encode(front);
        assert text[..|text|] == text;
      } else {
        StartsWithout(Encode(front), EncodeChar(c), NEWLINE);
      }
      forall i | 0 <= i < |Starts(front, '\n')|
        ensures At(text, Starts(text, '\n')[i], Starts(Encode(text), NEWLINE)[i])
      {
        assert text[..Starts(front, '\n')[i]] == front[..Starts(front, '\n')[i]];
      }
    }
  }

  // ----- Lines and columns of scalar positions -----

  function Line(text: string, k: nat): nat
    requires k <= |text|
  {
    |Starts(text[..k], '\n')|
  }

  function Column(text: string, k: nat): nat
    requires k <= |text|
  {
    k - Last(Starts(text[..k], '\n')) + 1
  }

  /** Lines count the newlines before a position; columns the scalars since the last of them. */
  lemma LineAndColumn(text: string, k: nat)
    requires k <= |text|
    ensures Line(text, k) == 1 + Occurrences(text[..k], '\n')
    ensures var since := k + 1 - Column(text, k);
            0 <= since <= k && '\n' !in text[since..k] && (since > 0 ==> text[since - 1] == '\n')
  {
    LinesAreNewlines(text[..k], '\n');
    LastStart(text[..k], '\n');
    var since := Last(Starts(text[..k], '\n'));
    assert text[..k][since..] == text[since..k];
  }

  /** Later positions are on later lines, or further right on the same one. */
  lemma LocationsIncrease(text: string, j: nat, k: nat)
    requires j < k <= |text|
    ensures Line(text, j) < Line(text, k) || (Line(text, j) == Line(text, k) && Column(text, j) < Column(text, k))
  {
    StartsOfPrefix(text[..k], '\n', j);
    assert text[..k][..j] == text[..j];
  }

  // ----- The lines themselves -----

  function LineOf(text: string, line: nat): string
    requires 1 <= line <= |Starts(text, '\n')|
  {
    var starts := Starts(text, '\n');
    text[starts[line - 1]..if line < |starts| then starts[line] else |text|]
  }

  function TrimEnd<T(==)>(s: seq<T>, drop: set<T>): (r: seq<T>)
    ensures r <= s && (r != [] ==> r[|r| - 1] !in drop)
    ensures forall i :: |r| <= i < |s| ==> s[i] in drop
  {
    if s != [] && s[|s| - 1] in drop then TrimEnd(s[..|s| - 1], drop) else s
  }

  lemma {:induction false} TrimEncoded(line: string)
    ensures TrimEnd(Encode(line), {13, 10}) == Encode(TrimEnd(line, {'\r', '\n'}))
  {
    if line != [] {
      var front, c := line[..|line| - 1], line[|line| - 1];
      assert line == front + [c];
      EncodeJoins(front, [c]);
      assert Encode([c]) == EncodeChar(c) + [] == EncodeChar(c);
      assert Encode(line)[Width(line) - 1] in {13, 10} <==> c in {'\r', '\n'} by {
        LastByte(c);
      }
      if c in {'\r', '\n'} {
        assert Encode(line)[..Width(line) - 1] == Encode(front);
        TrimEncoded(front);
      }
    }
  }

  lemma LastByte(c: char)
    ensures EncodeChar(c)[|EncodeChar(c)| - 1] in {13, 10} <==> c in {'\r', '\n'}
    ensures c in {'\r', '\n'} ==> |EncodeChar(c)| == 1
  {
  }

  /** A source file: its bytes are the encoding of its text. */
  class SourceFile {
    const id: nat
    const name: string
    const bytes: seq<Byte>
    ghost const text: string
    var lineStarts: seq<nat>

    ghost predicate Valid()
      reads this
    {
      bytes == Encode(text) && lineStarts == Starts(bytes, NEWLINE)
    }

    constructor (id: nat, name: string, ghost text: string, bytes: seq<Byte>)
      requires bytes == Encode(text)
      ensures Valid() && this.id == id && this.name == name && this.text == text
    {
      this.id, this.name, this.text, this.bytes := id, name, text, bytes;
      lineStarts := [0];
      new;
      for offset := 0 to |bytes|
        invariant lineStarts == Starts(bytes[..offset], NEWLINE)
      {
        assert bytes[..offset + 1][..offset] == bytes[..offset];
        if bytes[offset] == NEWLINE {
          lineStarts := lineStarts + [offset + 1];
        }
      }
      assert bytes[..|bytes|] == bytes;
    }

    /** Where `offset` is among the line starts, or would be. */
    method SearchStarts(offset: nat) returns (found: bool, index: nat)
      requires Valid()
      ensures index <= |lineStarts| && (found ==> index < |lineStarts| && lineStarts[index] == offset)
      ensures !found ==> forall i :: 0 <= i < |lineStarts| ==>
                           (i < index <==> lineStarts[i] < offset) && lineStarts[i] != offset
    {
      var low, high := 0, |lineStarts|;
      while low < high
        invariant 0 <= low <= high <= |lineStarts|
        invariant forall i :: 0 <= i < low ==> lineStarts[i] < offset
        invariant forall i :: high <= i < |lineStarts| ==> lineStarts[i] > offset
      {
        var mid := (low + high) / 2;
        if lineStarts[mid] == offset {
          return true, mid;
        } else if lineStarts[mid] < offset {
          low := mid + 1;
        } else {
          high := mid;
        }
      }
      return false, low;
    }

    /** Defined exactly at the positions between scalars. */
    method Location(offset: nat) returns (r: Option<(nat, nat)>)
      requires Valid()
      ensures r.Some? <==> exists k: nat :: At(text, k, offset)
      ensures forall k: nat :: At(text, k, offset) ==> r == Some((Line(text, k), Column(text, k)))
    {
      hide Heads, Encode, Starts, Line, Column, IsBoundary;
      BoundaryIsScalarPosition(text, offset);
      if offset > |bytes| || !IsBoundary(bytes, offset) {
        return None;
      }
      var found, index := SearchStarts(offset);
      if !found {
        index := if index == 0 then 0 else index - 1;
      }
      var start := lineStarts[index];
      var column := Heads(bytes[start..offset]) + 1;
      r := Some((index + 1, column));
      ghost var k := ScalarsBefore(text, offset);
      LastStartBefore(bytes, offset, index);
      LocatedAt(text, k, offset);
      forall j: nat | At(text, j, offset) ensures j == k {
        PositionIsUnique(text, j, k, offset);
      }
    }

    method LineText(line: nat) returns (r: Option<seq<Byte>>)
      requires Valid()
      ensures r.Some? <==> 1 <= line <= |Starts(text, '\n')|
      ensures r.Some? ==> r.value == Encode(TrimEnd(LineOf(text, line), {'\r', '\n'}))
    {
      StartsAlign(text);
      if line == 0 || line > |lineStarts| {
        return None;
      }
      var start := lineStarts[line - 1];
      var end := if line < |lineStarts| then lineStarts[line] else |bytes|;
      ghost var starts := Starts(text, '\n');
      ghost var i, j := starts[line - 1], if line < |starts| then starts[line] else |text|;
      assert text[..|text|] == text;
      EncodeSlice(text, i, j);
      TrimEncoded(LineOf(text, line));
      r := Some(TrimEnd(bytes[start..end], {13, 10}));
    }

    /** A span of another file has no text here. */
    method SpanText(source: nat, start: nat, end: nat) returns (r: Option<seq<Byte>>)
      requires Valid()
      ensures r.Some? <==> source == id && exists j: nat, k: nat :: j <= k && At(text, j, start) && At(text, k, end)
      ensures forall j: nat, k: nat :: source == id && j <= k && At(text, j, start) && At(text, k, end) ==>
                r == Some(Encode(text[j..k]))
    {
      if source != id {
        return None;
      }
      BoundaryIsScalarPosition(text, start);
      BoundaryIsScalarPosition(text, end);
      forall j: nat, k: nat | j <= k && At(text, j, start) && At(text, k, end) ensures start <= end {
        EncodeSlice(text, j, k);
      }
      if start > end || end > |bytes| || !IsBoundary(bytes, start) || !IsBoundary(bytes, end) {
        return None;
      }
      ghost var j := ScalarsBefore(text, start);
      ghost var k := ScalarsBefore(text, end);
      if k < j {
        EncodeSlice(text, k, j);
      }
      r := Some(bytes[start..end]);
      forall j': nat, k': nat | j' <= k' && At(text, j', start) && At(text, k', end)
        ensures r == Some(Encode(text[j'..k']))
      {
        EncodeSlice(text, j', k');
      }
      assert j <= k && At(text, j, start) && At(text, k, end);
    }
  }

  /** The line start found by search is the last one before the offset. */
  lemma LastStartBefore(bytes: seq<Byte>, offset: nat, index: nat)
    requires offset <= |bytes| && index < |Starts(bytes, NEWLINE)|
    requires Starts(bytes, NEWLINE)[index] <= offset
    requires index + 1 < |Starts(bytes, NEWLINE)| ==> offset < Starts(bytes, NEWLINE)[index + 1]
    ensures index + 1 == |Starts(bytes[..offset], NEWLINE)|
    ensures Starts(bytes, NEWLINE)[index] == Last(Starts(bytes[..offset], NEWLINE))
  {
    StartsOfPrefix(bytes, NEWLINE, offset);
  }

  /** What the byte-wise computation yields at a scalar position. */
  lemma LocatedAt(text: string, k: nat, offset: nat)
    requires At(text, k, offset)
    ensures offset <= Width(text)
    ensures var starts := Starts(Encode(text)[..offset], NEWLINE);
            && |starts| == Line(text, k)
            && Last(starts) <= offset
            && Heads(Encode(text)[Last(starts)..offset]) + 1 == Column(text, k)
  {
    EncodeSplits(text, k);
    StartsAlign(text[..k]);
    var start := Last(Starts(text[..k], '\n'));
    assert text[..k][..start] == text[..start];
    EncodeSlice(text, start, k);
    HeadsAreScalars(text[start..k]);
  }
}
