/**
 The token-window chunker (app/ingestion/chunker.py).

 The tokenizer is any function that splits the UTF-8 bytes of a text into non-empty
 tokens; tokens are represented by their bytes.
 */
module Chunker {
  import opened Prelude
  import opened Utf8
  import opened PyText

  // ---- Tokens and their character ranges -----------------------------------

  function Join(tokens: seq<seq<Byte>>): seq<Byte> {
    if tokens == [] then [] else Join(tokens[..|tokens| - 1]) + tokens[|tokens| - 1]
  }

  predicate Tokenizes(tokens: seq<seq<Byte>>, text: string) {
    Join(tokens) == Encode(text) && forall t | t in tokens :: t != []
  }

  /** First byte of token i, or the end of the text for i == |tokens|. */
  function TokenStart(tokens: seq<seq<Byte>>, i: nat): nat
    requires i <= |tokens|
  {
    if i == 0 then 0 else TokenStart(tokens, i - 1) + |tokens[i - 1]|
  }

  lemma {:induction false} TokenStartIsLength(tokens: seq<seq<Byte>>, i: nat)
    requires i <= |tokens|
    ensures TokenStart(tokens, i) == |Join(tokens[..i])|
  {
    if i > 0 {
      TokenStartIsLength(tokens, i - 1);
      assert tokens[..i][..i - 1] == tokens[..i - 1];
    }
  }

  lemma {:induction false} TokenStartsIncrease(text: string, tokens: seq<seq<Byte>>, i: nat, j: nat)
    requires Tokenizes(tokens, text) && i <= j <= |tokens|
    ensures TokenStart(tokens, i) + (j - i) <= TokenStart(tokens, j)
    decreases j
  {
    if i < j {
      TokenStartsIncrease(text, tokens, i, j - 1);
      assert tokens[j - 1] in tokens;
    }
  }

  lemma TokenBounds(text: string, tokens: seq<seq<Byte>>, i: nat)
    requires Tokenizes(tokens, text) && i < |tokens|
    ensures TokenStart(tokens, 0) == 0 && TokenStart(tokens, |tokens|) == |Encode(text)|
    ensures TokenStart(tokens, i) < TokenStart(tokens, i + 1) <= |Encode(text)|
  {
    TokenStartIsLength(tokens, |tokens|);
    assert tokens[..|tokens|] == tokens;
    TokenStartsIncrease(text, tokens, i, i + 1);
    TokenStartsIncrease(text, tokens, i + 1, |tokens|);
  }

  /** The character that contains byte b. */
  function CharAt(text: string, b: nat): (c: nat)
    requires b < |Encode(text)|
    ensures Contains(text, c, b)
  {
    OffsetEnds(text);
    LastCharUpTo(text, b, |text| - 1)
  }

  /** The last character up to c that starts at b or before. */
  function LastCharUpTo(text: string, b: nat, c: nat): (r: nat)
    requires c < |text| && b < Offset(text, c + 1)
    ensures Contains(text, r, b)
  {
    if Offset(text, c) <= b then c else LastCharUpTo(text, b, c - 1)
  }

  lemma ContainsOrdered(text: string, c: nat, b: int, c': nat, b': int)
    requires Contains(text, c, b) && Contains(text, c', b')
    ensures b <= b' ==> c <= c'
    ensures b' == b + 1 ==> c' <= c + 1
  {
    if c' < c {
      OffsetsIncrease(text, c' + 1, c);
    } else if c + 1 < c' {
      OffsetsIncrease(text, c + 1, c');
    }
  }

  /** From the character of a token's first byte up to that of its last byte. */
  function Range(text: string, tokens: seq<seq<Byte>>, i: nat): (r: (nat, nat))
    requires Tokenizes(tokens, text) && i < |tokens|
    ensures r.0 < r.1 <= |text|
    ensures Contains(text, r.0, TokenStart(tokens, i)) && Contains(text, r.1 - 1, TokenStart(tokens, i + 1) - 1)
  {
    TokenBounds(text, tokens, i);
    var first, last := TokenStart(tokens, i), TokenStart(tokens, i + 1) - 1;
    ContainsOrdered(text, CharAt(text, first), first, CharAt(text, last), last);
    (CharAt(text, first), CharAt(text, last) + 1)
  }

  /** The range covers the token's bytes, and every range that does contains it. */
  lemma RangeIsTightest(text: string, tokens: seq<seq<Byte>>, i: nat)
    requires Tokenizes(tokens, text) && i < |tokens|
    ensures var r := Range(text, tokens, i);
      && Offset(text, r.0) <= TokenStart(tokens, i) && TokenStart(tokens, i + 1) <= Offset(text, r.1)
      && forall a: nat, b: nat | a <= |text| && b <= |text|
           && Offset(text, a) <= TokenStart(tokens, i) && TokenStart(tokens, i + 1) <= Offset(text, b) ::
             a <= r.0 && r.1 <= b
  {
    var r := Range(text, tokens, i);
    TokenBounds(text, tokens, i);
    forall a: nat, b: nat | a <= |text| && b <= |text|
      && Offset(text, a) <= TokenStart(tokens, i) && TokenStart(tokens, i + 1) <= Offset(text, b)
      ensures a <= r.0 && r.1 <= b
    {
      if r.0 < a {
        OffsetsIncrease(text, r.0 + 1, a);
      }
      if b < r.1 {
        OffsetsIncrease(text, b, r.1 - 1);
      }
    }
  }

  lemma FirstAndLastChar(text: string, c: nat)
    requires c < |text|
    ensures Contains(text, c, 0) ==> c == 0
    ensures |Encode(text)| > 0 && Contains(text, c, |Encode(text)| - 1) ==> c + 1 == |text|
  {
    OffsetEnds(text);
    OffsetsIncrease(text, 0, c);
    OffsetsIncrease(text, c + 1, |text|);
  }

  /** Ranges start at the first character, end at the last, and each one starts where
      the previous one ends or, inside a shared character, one before. */
  lemma RangesAdjoin(text: string, tokens: seq<seq<Byte>>, i: nat)
    requires Tokenizes(tokens, text) && i < |tokens|
    ensures i == 0 ==> Range(text, tokens, i).0 == 0
    ensures i == |tokens| - 1 ==> Range(text, tokens, i).1 == |text|
    ensures i > 0 ==> Range(text, tokens, i).0 in {Range(text, tokens, i - 1).1, Range(text, tokens, i - 1).1 - 1}
  {
    TokenBounds(text, tokens, i);
    var r := Range(text, tokens, i);
    FirstAndLastChar(text, r.0);
    FirstAndLastChar(text, r.1 - 1);
    if i > 0 {
      TokenBounds(text, tokens, i - 1);
      var b := TokenStart(tokens, i);
      ContainsOrdered(text, Range(text, tokens, i - 1).1 - 1, b - 1, r.0, b);
    }
  }

  lemma RangesOrdered(text: string, tokens: seq<seq<Byte>>, i: nat, j: nat)
    requires Tokenizes(tokens, text) && i <= j < |tokens|
    ensures Range(text, tokens, i).0 <= Range(text, tokens, j).0
    ensures Range(text, tokens, i).1 <= Range(text, tokens, j).1
  {
    TokenStartsIncrease(text, tokens, i, j);
    TokenStartsIncrease(text, tokens, i + 1, j + 1);
    CharsOrdered(text, Range(text, tokens, i), TokenStart(tokens, i), TokenStart(tokens, i + 1),
                 Range(text, tokens, j), TokenStart(tokens, j), TokenStart(tokens, j + 1));
  }

  lemma CharsOrdered(text: string, r: (nat, nat), a: int, b: int, r': (nat, nat), a': int, b': int)
    requires a <= a' && b <= b' && r.1 > 0 && r'.1 > 0
    requires Contains(text, r.0, a) && Contains(text, r.1 - 1, b - 1)
    requires Contains(text, r'.0, a') && Contains(text, r'.1 - 1, b' - 1)
    ensures r.0 <= r'.0 && r.1 <= r'.1
  {
    ContainsOrdered(text, r.0, a, r'.0, a');
    ContainsOrdered(text, r.1 - 1, b - 1, r'.1 - 1, b' - 1);
  }

  // ---- The offset table ----------------------------------------------------

  /** Every byte maps to its character, the position after the last byte to |text|. */
  ghost predicate ByteTable(text: string, table: seq<nat>) {
    && |table| == |Encode(text)| + 1
    && table[|table| - 1] == |text|
    && forall j | 0 <= j < |table| - 1 :: Contains(text, table[j], j)
  }

  ghost predicate AreRanges(text: string, tokens: seq<seq<Byte>>, offsets: seq<(nat, nat)>)
    requires Tokenizes(tokens, text)
  {
    |offsets| <= |tokens| && forall j | 0 <= j < |offsets| :: offsets[j] == Range(text, tokens, j)
  }

  lemma OneMoreRange(text: string, tokens: seq<seq<Byte>>, offsets: seq<(nat, nat)>, range: (nat, nat))
    requires Tokenizes(tokens, text) && |offsets| < |tokens|
    requires AreRanges(text, tokens, offsets) && range == Range(text, tokens, |offsets|)
    ensures AreRanges(text, tokens, offsets + [range])
  {
    var more := offsets + [range];
    forall j | 0 <= j < |more| ensures more[j] == Range(text, tokens, j) {
      if j < |offsets| {
        assert more[j] == offsets[j];
      }
    }
  }

  /** _build_char_offsets: the table from bytes to characters, then one range a token. */
  method BuildCharOffsets(text: string, tokens: seq<seq<Byte>>) returns (offsets: seq<(nat, nat)>)
    requires Tokenizes(tokens, text)
    ensures |offsets| == |tokens| && AreRanges(text, tokens, offsets)
  {
    var textBytes := Encode(text);
    var byteToChar := BuildByteToChar(text, textBytes);
    offsets := [];
    var bytePos := 0;
    for i := 0 to |tokens|
      invariant bytePos == TokenStart(tokens, i)
      invariant |offsets| == i && AreRanges(text, tokens, offsets)
      invariant ByteTable(text, byteToChar[..])
    {
      var range := CharRange(text, textBytes, byteToChar, tokens, i, bytePos);
      OneMoreRange(text, tokens, offsets, range);
      offsets := offsets + [range];
      bytePos := bytePos + |tokens[i]|;
    }
  }

  /** The loop body of _build_char_offsets for token i, which starts at bytePos. */
  method CharRange(text: string, textBytes: seq<Byte>, byteToChar: array<nat>, tokens: seq<seq<Byte>>, i: nat,
                   bytePos: nat)
    returns (range: (nat, nat))
    requires Tokenizes(tokens, text) && textBytes == Encode(text)
    requires i < |tokens| && bytePos == TokenStart(tokens, i)
    requires ByteTable(text, byteToChar[..])
    ensures range == Range(text, tokens, i)
  {
    var nBytes := |textBytes|;
    assert byteToChar.Length == nBytes + 1 && forall j | 0 <= j < nBytes :: byteToChar[j] == byteToChar[..][j];
    TokenBounds(text, tokens, i);
    var endByte := bytePos + |tokens[i]|;
    var startChar := byteToChar[if bytePos < nBytes then bytePos else nBytes];
    var eb := NextBoundary(text, textBytes, if endByte < nBytes then endByte else nBytes, Range(text, tokens, i).1 - 1);
    var endChar := if eb < nBytes then byteToChar[eb] else |text|;
    RangeFromTable(text, tokens, i, startChar, eb, endChar);
    range := (startChar, endChar);
  }

  /** Fills the table character by character, each as long as its leading byte says. */
  method BuildByteToChar(text: string, textBytes: seq<Byte>) returns (table: array<nat>)
    requires textBytes == Encode(text)
    ensures fresh(table) && ByteTable(text, table[..])
  {
    var nBytes := |textBytes|;
    table := new nat[nBytes + 1](_ => 0);
    var charIdx, b := 0, 0;
    OffsetEnds(text);
    while b < nBytes
      invariant charIdx <= |text| && b == Offset(text, charIdx) <= nBytes
      invariant forall j | 0 <= j < b :: Contains(text, table[j], j)
    {
      OffsetsIncrease(text, charIdx, |text|);
      EncodingAt(text, charIdx, 0);
      OffsetsIncrease(text, charIdx + 1, |text|);
      var seqLen := SequenceLength(textBytes[b]);
      for k := 0 to seqLen
        invariant forall j | 0 <= j < b + k :: Contains(text, table[j], j)
      {
        if b + k < nBytes {
          table[b + k] := charIdx;
        }
      }
      b := b + seqLen;
      charIdx := charIdx + 1;
    }
    table[nBytes] := |text|;
  }

  /** Skips continuation bytes: stops at the end of character c, which the token's last
      byte belongs to. */
  method NextBoundary(text: string, textBytes: seq<Byte>, endByte: nat, ghost c: nat) returns (eb: nat)
    requires textBytes == Encode(text) && 0 < endByte <= |textBytes| && Contains(text, c, endByte - 1)
    ensures eb == Offset(text, c + 1) <= |textBytes|
  {
    OffsetEnds(text);
    OffsetsIncrease(text, c + 1, |text|);
    eb := endByte;
    while eb < |textBytes| && IsContinuation(textBytes[eb])
      invariant endByte <= eb <= Offset(text, c + 1)
      decreases |textBytes| - eb
    {
      if eb == Offset(text, c + 1) {
        var next := CharAt(text, eb);
        ContainsOrdered(text, c, eb - 1, next, eb);
        ContinuationInside(text, next, eb);
      }
      eb := eb + 1;
    }
    if eb < Offset(text, c + 1) {
      ContinuationInside(text, c, eb);
    }
  }

  lemma RangeFromTable(text: string, tokens: seq<seq<Byte>>, i: nat, startChar: nat, eb: nat, endChar: nat)
    requires Tokenizes(tokens, text) && i < |tokens|
    requires Contains(text, startChar, TokenStart(tokens, i))
    requires eb == Offset(text, Range(text, tokens, i).1) <= |Encode(text)|
    requires if eb < |Encode(text)| then Contains(text, endChar, eb) else endChar == |text|
    ensures (startChar, endChar) == Range(text, tokens, i)
  {
    var r := Range(text, tokens, i);
    ContainsUnique(text, startChar, r.0, TokenStart(tokens, i));
    OffsetEnds(text);
    if eb < |Encode(text)| {
      OffsetsIncrease(text, r.1, r.1 + 1);
      ContainsUnique(text, endChar, r.1, eb);
    } else {
      OffsetsIncrease(text, r.1, |text|);
    }
  }
}
