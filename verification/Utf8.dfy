/** UTF-8 (section 3 of RFC 3629) as str.encode("utf-8") produces it. */
module Utf8 {
  type Byte = b: int | 0 <= b < 256

  function CharLength(c: char): (n: nat)
    ensures 1 <= n <= 4
  {
    var n := c as int;
    if n < 0x80 then 1 else if n < 0x800 then 2 else if n < 0x10000 then 3 else 4
  }

  function EncodeChar(c: char): (r: seq<Byte>)
    ensures |r| == CharLength(c)
    ensures SequenceLength(r[0]) == |r|
    ensures !IsContinuation(r[0])
    ensures forall k | 1 <= k < |r| :: IsContinuation(r[k])
  {
    var n := c as int;
    if n < 0x80 then [n]
    else if n < 0x800 then [0xC0 + n / 64, Low(n)]
    else if n < 0x10000 then [0xE0 + n / 4096, Low(n / 64), Low(n)]
    else [0xF0 + n / 262144, Low(n / 4096), Low(n / 64), Low(n)]
  }

  function Low(n: nat): Byte {
    0x80 + n % 64
  }

  predicate IsContinuation(b: Byte) {
    0x80 <= b < 0xC0
  }

  /** The length that chunker.py reads off a leading byte. */
  function SequenceLength(b: Byte): nat {
    if b < 0x80 then 1 else if b < 0xE0 then 2 else if b < 0xF0 then 3 else 4
  }

  function Encode(text: string): seq<Byte> {
    if text == [] then [] else Encode(text[..|text| - 1]) + EncodeChar(text[|text| - 1])
  }

  /** Byte position at which character i starts. */
  function Offset(text: string, i: nat): nat
    requires i <= |text|
  {
    if i == 0 then 0 else Offset(text, i - 1) + CharLength(text[i - 1])
  }

  lemma {:induction false} OffsetIsLength(text: string, i: nat)
    requires i <= |text|
    ensures Offset(text, i) == |Encode(text[..i])|
  {
    if i > 0 {
      OffsetIsLength(text, i - 1);
      assert text[..i][..i - 1] == text[..i - 1];
    }
  }

  lemma OffsetEnds(text: string)
    ensures Offset(text, 0) == 0 && Offset(text, |text|) == |Encode(text)|
  {
    OffsetIsLength(text, |text|);
    assert text[..|text|] == text;
  }

  lemma {:induction false} OffsetsIncrease(text: string, i: nat, j: nat)
    requires i <= j <= |text|
    ensures Offset(text, i) + (j - i) <= Offset(text, j)
    decreases j
  {
    if i < j {
      OffsetsIncrease(text, i, j - 1);
    }
  }

  lemma {:induction false} OffsetInPrefix(text: string, m: nat, i: nat)
    requires i <= m <= |text|
    ensures Offset(text[..m], i) == Offset(text, i)
  {
    if i > 0 {
      OffsetInPrefix(text, m, i - 1);
    }
  }

  /** The bytes of character i sit at its offset. */
  lemma {:induction false} EncodingAt(text: string, i: nat, k: nat)
    requires i < |text| && k < CharLength(text[i])
    ensures Offset(text, i) + k < |Encode(text)|
    ensures Encode(text)[Offset(text, i) + k] == EncodeChar(text[i])[k]
    decreases |text|
  {
    var last := |text| - 1;
    if i < last {
      EncodingAt(text[..last], i, k);
      OffsetInPrefix(text, last, i);
    } else {
      OffsetIsLength(text, last);
    }
  }

  /** Character c contains byte b. */
  predicate Contains(text: string, c: nat, b: int) {
    c < |text| && Offset(text, c) <= b < Offset(text, c + 1)
  }

  lemma ContainsUnique(text: string, c: nat, c': nat, b: int)
    requires Contains(text, c, b) && Contains(text, c', b)
    ensures c == c'
  {
    if c < c' {
      OffsetsIncrease(text, c + 1, c');
    } else if c' < c {
      OffsetsIncrease(text, c' + 1, c);
    }
  }

  /** A byte of the encoding is a continuation byte unless a character starts there. */
  lemma ContinuationInside(text: string, c: nat, b: int)
    requires Contains(text, c, b)
    ensures b < |Encode(text)|
    ensures IsContinuation(Encode(text)[b]) <==> b != Offset(text, c)
  {
    EncodingAt(text, c, b - Offset(text, c));
  }
}
