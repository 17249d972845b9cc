/** UTF-8 as in section 3 of RFC 3629, and what byte offsets say about scalars. */
module Utf8 {
  import opened Options

  newtype Byte = b: int | 0 <= b < 256

  const NEWLINE: Byte := 10

  predicate IsContinuation(b: Byte) { 0x80 <= b < 0xC0 }

  function EncodeChar(c: char): (bytes: seq<Byte>)
    ensures 1 <= |bytes| <= 4 && !IsContinuation(bytes[0])
    ensures forall i :: 1 <= i < |bytes| ==> IsContinuation(bytes[i])
    ensures forall i :: 0 <= i < |bytes| ==> (bytes[i] == NEWLINE <==> c == '\n')
  {
    var n := c as int;
    if n < 0x80 then [n as Byte]
    else if n < 0x800 then [(0xC0 + n / 0x40) as Byte, (0x80 + n % 0x40) as Byte]
    else if n < 0x1_0000 then
      [(0xE0 + n / 0x1000) as Byte, (0x80 + n / 0x40 % 0x40) as Byte, (0x80 + n % 0x40) as Byte]
    else
      [(0xF0 + n / 0x4_0000) as Byte, (0x80 + n / 0x1000 % 0x40) as Byte, (0x80 + n / 0x40 % 0x40) as Byte,
       (0x80 + n % 0x40) as Byte]
  }

  function Encode(s: string): seq<Byte> {
    if s == [] then [] else EncodeChar(s[0]) + Encode(s[1..])
  }

  /** How many bytes some scalars take. */
  function Width(s: string): nat { |Encode(s)| }

  lemma EncodeUnfolds(s: string)
    ensures Encode(s) == if s == [] then [] else EncodeChar(s[0]) + Encode(s[1..])
  {
  }

  lemma Associate(a: seq<Byte>, b: seq<Byte>, c: seq<Byte>)
    ensures a + (b + c) == a + b + c
  {
  }

  lemma {:induction false} EncodeJoins(a: string, b: string)
    ensures Encode(a + b) == Encode(a) + Encode(b)
  {
    hide Encode, EncodeChar;
    EncodeUnfolds(a);
    EncodeUnfolds(a + b);
    if a == [] {
      assert a + b == b;
    } else {
      EncodeJoins(a[1..], b);
      assert (a + b)[1..] == a[1..] + b;
      Associate(EncodeChar(a[0]), Encode(a[1..]), Encode(b));
    }
  }

  lemma EncodeSplits(s: string, k: nat)
    requires k <= |s|
    ensures Width(s[..k]) <= Width(s)
    ensures Encode(s)[..Width(s[..k])] == Encode(s[..k]) && Encode(s)[Width(s[..k])..] == Encode(s[k..])
  {
    hide Encode;
    EncodeJoins(s[..k], s[k..]);
    assert s[..k] + s[k..] == s;
  }

  /** The bytes between two scalar positions. */
  lemma EncodeSlice(s: string, j: nat, k: nat)
    requires j <= k <= |s|
    ensures Width(s[..j]) <= Width(s[..k]) <= Width(s)
    ensures Encode(s)[Width(s[..j])..Width(s[..k])] == Encode(s[j..k])
    ensures j < k ==> Width(s[..j]) < Width(s[..k])
  {
    EncodeSplits(s, k);
    EncodeSplits(s[..k], j);
    assert s[..k][..j] == s[..j] && s[..k][j..] == s[j..k];
    var i, n := Width(s[..j]), Width(s[..k]);
    assert Encode(s)[i..n] == Encode(s)[..n][i..];
  }

  // ----- Boundaries -----

  /** A position between characters, as one looks at the byte there. */
  predicate IsBoundary(bytes: seq<Byte>, offset: nat) {
    offset == 0 || offset == |bytes| || (offset < |bytes| && !IsContinuation(bytes[offset]))
  }

  /** The offset has exactly `k` scalars before it. */
  predicate At(s: string, k: nat, offset: nat) { k <= |s| && offset == Width(s[..k]) }

  lemma {:induction false} BoundaryIsScalarPosition(s: string, offset: nat)
    ensures offset <= Width(s) && IsBoundary(Encode(s), offset) <==> exists k: nat :: At(s, k, offset)
  {
    if exists k: nat :: At(s, k, offset) {
      var k: nat :| At(s, k, offset);
      EncodeSplits(s, k);
      assert k < |s| ==> Encode(s)[offset] == Encode(s[k..])[0];
      assert k == |s| ==> s[..k] == s;
    }
    if offset <= Width(s) && IsBoundary(Encode(s), offset) {
      var _ := ScalarsBefore(s, offset);
    }
  }

  lemma {:induction false} ScalarsBefore(s: string, offset: nat) returns (k: nat)
    requires offset <= Width(s) && IsBoundary(Encode(s), offset)
    ensures At(s, k, offset)
  {
    if offset == 0 {
      k := 0;
    } else {
      var first := EncodeChar(s[0]);
      assert Encode(s) == first + Encode(s[1..]);
      assert offset >= |first|;
      assert IsBoundary(Encode(s[1..]), offset - |first|);
      k := ScalarsBefore(s[1..], offset - |first|);
      k := k + 1;
      assert s[..k][0] == s[0] && s[..k][1..] == s[1..][..k - 1];
    }
  }

  lemma PositionIsUnique(s: string, j: nat, k: nat, offset: nat)
    requires At(s, j, offset) && At(s, k, offset)
    ensures j == k
  {
    if j < k {
      EncodeSlice(s, j, k);
    } else if k < j {
      EncodeSlice(s, k, j);
    }
  }

  /** The number of scalars before an offset, if it is a boundary. */
  ghost function ScalarsAt(s: string, offset: nat): (r: Option<nat>)
    ensures r.Some? ==> At(s, r.value, offset)
    ensures r.None? ==> !exists k: nat :: At(s, k, offset)
  {
    if exists k: nat :: At(s, k, offset) then
      var k: nat :| At(s, k, offset);
      Some(k)
    else None
  }

  // ----- Counting scalars -----

  /** Scalars in well-formed bytes: those that do not continue one. */
  function Heads(bytes: seq<Byte>): nat {
    if bytes == [] then 0 else (if IsContinuation(bytes[0]) then 0 else 1) + Heads(bytes[1..])
  }

  lemma {:induction false} HeadsJoin(a: seq<Byte>, b: seq<Byte>)
    ensures Heads(a + b) == Heads(a) + Heads(b)
  {
    if a == [] {
      assert a + b == b;
    } else {
      HeadsJoin(a[1..], b);
      assert (a + b)[1..] == a[1..] + b;
    }
  }

  lemma {:induction false} NoHeads(bytes: seq<Byte>)
    requires forall i :: 0 <= i < |bytes| ==> IsContinuation(bytes[i])
    ensures Heads(bytes) == 0
  {
    if bytes != [] {
      NoHeads(bytes[1..]);
    }
  }

  lemma {:induction false} HeadsAreScalars(s: string)
    ensures Heads(Encode(s)) == |s|
  {
    if s != [] {
      var first := EncodeChar(s[0]);
      NoHeads(first[1..]);
      HeadsJoin(first, Encode(s[1..]));
      HeadsAreScalars(s[1..]);
    }
  }

  // ----- Decoding -----

  function Length(first: Byte): nat {
    if first < 0x80 then 1 else if first < 0xE0 then 2 else if first < 0xF0 then 3 else 4
  }

  function Scalar(bytes: seq<Byte>): int
    requires bytes != [] && |bytes| == Length(bytes[0])
  {
    var b := (i: nat) requires i < |bytes| => bytes[i] as int;
    if |bytes| == 1 then b(0)
    else if |bytes| == 2 then (b(0) - 0xC0) * 0x40 + b(1) - 0x80
    else if |bytes| == 3 then (b(0) - 0xE0) * 0x1000 + (b(1) - 0x80) * 0x40 + b(2) - 0x80
    else (b(0) - 0xF0) * 0x4_0000 + (b(1) - 0x80) * 0x1000 + (b(2) - 0x80) * 0x40 + b(3) - 0x80
  }

  predicate IsScalar(n: int) { 0 <= n < 0xD800 || 0xE000 <= n < 0x11_0000 }

  /** The scalars of well-formed bytes. */
  function Decode(bytes: seq<Byte>): string {
    if bytes == [] || |bytes| < Length(bytes[0]) then []
    else
      var n := Scalar(bytes[..Length(bytes[0])]);
      if IsScalar(n) then [n as char] + Decode(bytes[Length(bytes[0])..]) else []
  }

  /** Six bits at a time. */
  lemma Digits(n: nat)
    ensures n == n / 0x40 * 0x40 + n % 0x40
    ensures n / 0x1000 == n / 0x40 / 0x40 && n / 0x4_0000 == n / 0x1000 / 0x40
  {
  }

  lemma ScalarOfChar(c: char)
    ensures Length(EncodeChar(c)[0]) == |EncodeChar(c)| && Scalar(EncodeChar(c)) == c as int
  {
    var n := c as int;
    Digits(n);
    Digits(n / 0x40);
    Digits(n / 0x1000);
  }

  /** Decoding undoes encoding. */
  lemma {:induction false} DecodeUndoesEncode(s: string)
    ensures Decode(Encode(s)) == s
  {
    if s != [] {
      var first, bytes := EncodeChar(s[0]), Encode(s);
      ScalarOfChar(s[0]);
      assert bytes[..|first|] == first && bytes[|first|..] == Encode(s[1..]);
      DecodeUndoesEncode(s[1..]);
    }
  }
}
