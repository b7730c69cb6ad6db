/**
 The overlapping window over tokens, and what the chunks it cuts are good for:
 their exact number, no token in more than two of them, and the text put back together.

 size stands for the setting embedding_max_tokens, from which everything derives.
 */
module ChunkWindows {
  import opened Prelude
  import opened Utf8
  import opened PyText
  import opened Chunker

  function Overlap(size: nat): nat {
    if size / 4 > 8 then size / 4 else 8
  }

  function Stride(size: nat): int {
    size - Overlap(size)
  }

  function MinTokens(size: nat): nat {
    if size / 6 > 16 then size / 6 else 16
  }

  /** checksum is left out: it is a function of text. */
  datatype Chunk = Chunk(index: nat, text: string, tokenCount: nat, page: Option<int>, startChar: nat, endChar: nat)

  // ---- How many windows ----------------------------------------------------

  /** Number of chunks for n tokens. */
  function ChunkCount(n: nat, size: nat): nat {
    if size < 16 || n < MinTokens(size) then 0 else (n - MinTokens(size)) / Stride(size) + 1
  }

  function Smaller(a: int, b: int): int {
    if a <= b then a else b
  }

  /** First token of window k and the token after its last. */
  function First(k: nat, size: nat): int {
    k * Stride(size)
  }

  function End(k: nat, n: nat, size: nat): int {
    Smaller(First(k, size) + size, n)
  }

  lemma SizeFacts(size: nat)
    requires size >= 16
    ensures 16 <= MinTokens(size) <= size && 8 <= Stride(size) < size <= 2 * Stride(size)
    ensures MinTokens(size) <= Overlap(size) + 8
    ensures size >= 60 ==> MinTokens(size) <= Overlap(size) + 1
  {
  }

  lemma {:induction false} MulMonotone(a: nat, b: nat, s: nat)
    requires a <= b
    ensures a * s <= b * s
    decreases b
  {
    if a < b {
      MulMonotone(a, b - 1, s);
    }
  }

  /** q is x / s exactly when q * s <= x < (q + 1) * s. */
  lemma QuotientIs(x: nat, s: nat, q: nat)
    requires s > 0 && q * s <= x < (q + 1) * s
    ensures x / s == q
  {
    var r := x / s;
    assert r * s <= x < (r + 1) * s;
    if r < q {
      MulMonotone(r + 1, q, s);
    } else if q < r {
      MulMonotone(q + 1, r, s);
    }
  }

  /** k is the chunk count exactly when k windows reach the minimum and the next does not. */
  lemma CountIs(n: nat, size: nat, k: nat)
    requires size >= 16
    requires k > 0 ==> n - First(k - 1, size) >= MinTokens(size)
    requires n - First(k, size) < MinTokens(size)
    ensures k == ChunkCount(n, size)
  {
    SizeFacts(size);
    if k > 0 {
      assert (k - 1) * Stride(size) <= n - MinTokens(size) < k * Stride(size);
      FirstIsNatural(k - 1, size);
      QuotientIs(n - MinTokens(size), Stride(size), k - 1);
    }
  }

  lemma FirstIsNatural(k: nat, size: nat)
    requires size >= 16
    ensures First(k, size) >= 0 && First(k + 1, size) == First(k, size) + Stride(size)
  {
  }

  lemma FirstMonotone(a: nat, b: nat, size: nat)
    requires size >= 16 && a <= b
    ensures First(a, size) <= First(b, size)
  {
    SizeFacts(size);
    MulMonotone(a, b, Stride(size));
  }

  /** The windows counted are those that reach the minimum. */
  lemma CountedWindows(n: nat, size: nat, k: nat)
    requires size >= 16
    ensures k < ChunkCount(n, size) <==> n - First(k, size) >= MinTokens(size)
  {
    SizeFacts(size);
    if n >= MinTokens(size) {
      ReachesMinimum(n - MinTokens(size), Stride(size), k);
    } else {
      FirstIsNatural(k, size);
    }
  }

  lemma ReachesMinimum(x: nat, s: nat, k: nat)
    requires s > 0
    ensures k < x / s + 1 <==> x >= k * s
  {
    var q := x / s;
    assert q * s <= x < (q + 1) * s;
    if k <= q {
      MulMonotone(k, q, s);
    } else {
      MulMonotone(q + 1, k, s);
    }
  }

  /** Every token lies in at most two windows, and those follow one another. */
  lemma TokenInAtMostTwo(n: nat, size: nat, t: nat, a: nat, b: nat)
    requires size >= 16 && a <= b
    requires First(a, size) <= t < End(a, n, size) && First(b, size) <= t < End(b, n, size)
    ensures b <= a + 1
  {
    SizeFacts(size);
    FirstIsNatural(a, size);
    FirstIsNatural(a + 1, size);
    if b >= a + 2 {
      FirstMonotone(a + 2, b, size);
    }
  }

  /** A window that ends where its predecessor ends is the last one. */
  lemma OnlyTheLastIsContained(n: nat, size: nat, k: nat)
    requires size >= 16 && k + 1 < ChunkCount(n, size)
    requires End(k + 1, n, size) <= End(k, n, size)
    ensures k + 2 == ChunkCount(n, size)
  {
    SizeFacts(size);
    FirstIsNatural(k, size);
    FirstIsNatural(k + 1, size);
    CountedWindows(n, size, k + 1);
    CountIs(n, size, k + 2);
  }

  /** Tokens behind the last window: none from size 60 on, else fewer than
      MinTokens - Overlap. */
  lemma TailIsShort(n: nat, size: nat)
    requires size >= 16 && n >= MinTokens(size)
    ensures var covered := End(ChunkCount(n, size) - 1, n, size);
      && 0 < covered <= n
      && (covered < n ==> n - covered < MinTokens(size) - Overlap(size))
      && (size >= 60 ==> covered == n)
  {
    SizeFacts(size);
    var m := ChunkCount(n, size) - 1;
    CountedWindows(n, size, m);
    CountedWindows(n, size, m + 1);
    FirstIsNatural(m, size);
  }

  /** 60 is exact: below it, one token more than a window holds is lost. */
  lemma AllTokensCoveredIff(size: nat)
    requires size >= 16
    ensures size >= 60 <==>
      forall n: nat | n >= MinTokens(size) :: End(ChunkCount(n, size) - 1, n, size) == n
  {
    SizeFacts(size);
    if size >= 60 {
      forall n: nat | n >= MinTokens(size) ensures End(ChunkCount(n, size) - 1, n, size) == n {
        TailIsShort(n, size);
      }
    } else {
      CountIs(size + 1, size, 1);
      assert End(ChunkCount(size + 1, size) - 1, size + 1, size) == size;
    }
  }

  // ---- The windows ---------------------------------------------------------

  lemma WindowBounds(n: nat, size: nat, k: nat)
    requires k < ChunkCount(n, size)
    ensures size >= 16 && 0 <= First(k, size) < End(k, n, size) <= n
    ensures MinTokens(size) <= End(k, n, size) - First(k, size) <= size
  {
    SizeFacts(size);
    CountedWindows(n, size, k);
    FirstIsNatural(k, size);
  }

  /** Window k cut out of the text by the ranges of its first and last token. */
  function WindowAt(text: string, offsets: seq<(nat, nat)>, page: Option<int>, start: nat, size: nat, k: nat): Chunk
    requires k < ChunkCount(|offsets|, size)
  {
    WindowBounds(|offsets|, size, k);
    var first, end := First(k, size), End(k, |offsets|, size);
    var startChar, endChar := offsets[first].0, offsets[end - 1].1;
    Chunk(start + k, Slice(text, startChar, endChar), end - first, page, startChar, endChar)
  }

  /** start_char + len(text) == end_char. */
  predicate Intact(c: Chunk) {
    c.startChar + |c.text| == c.endChar
  }

  function Windows(text: string, offsets: seq<(nat, nat)>, page: Option<int>, start: nat, size: nat): seq<Chunk> {
    seq(ChunkCount(|offsets|, size),
        k requires 0 <= k < ChunkCount(|offsets|, size) => WindowAt(text, offsets, page, start, size, k))
  }

  function Larger(a: int, b: int): int {
    if a >= b then a else b
  }

  /** Windows of size tokens, a quarter of them (at least 8) shared with the one before,
      until fewer than a sixth of a window (or than 16 tokens) are left. */
  lemma WindowsAre(text: string, offsets: seq<(nat, nat)>, page: Option<int>, start: nat, size: nat, k: nat)
    requires size >= 16 && Ordered(text, offsets)
    ensures var stride, left := size - Larger(8, size / 4), |offsets| - k * (size - Larger(8, size / 4));
      var cs := Windows(text, offsets, page, start, size);
      && (k < |cs| <==> left >= Larger(16, size / 6))
      && (k < |cs| ==>
            var first, tokens := k * stride, Smaller(size, left);
            && 0 <= first && first + tokens <= |offsets|
            && offsets[first].0 < offsets[first + tokens - 1].1 <= |text|
            && cs[k] == Chunk(start + k, text[offsets[first].0..offsets[first + tokens - 1].1], tokens, page,
                              offsets[first].0, offsets[first + tokens - 1].1))
  {
    CountedWindows(|offsets|, size, k);
    if k < ChunkCount(|offsets|, size) {
      WindowBounds(|offsets|, size, k);
      ChunkSpan(text, offsets, page, start, size, k);
    }
  }

  /** _sliding_window; None stands for ChunkIntegrityError. */
  method SlidingWindow(text: string, offsets: seq<(nat, nat)>, page: Option<int>, start: nat, size: nat)
    returns (r: Option<seq<Chunk>>)
    ensures r.Some? ==> r.value == Windows(text, offsets, page, start, size)
    ensures r.Some? <==> forall c | c in Windows(text, offsets, page, start, size) :: Intact(c)
  {
    var n := |offsets|;
    var chunks: seq<Chunk> := [];
    var i: int := 0;
    var chunkIndex := start;
    ghost var all := Windows(text, offsets, page, start, size);
    while i < n
      invariant |chunks| <= |all| && chunks == all[..|chunks|]
      invariant chunkIndex == start + |chunks|
      invariant if size < 16 then i == 0 else i == First(|chunks|, size)
      invariant forall c | c in chunks :: Intact(c)
      decreases n - i
    {
      var end := Smaller(i + size, n);
      if end - i < MinTokens(size) {
        break;
      }
      CountedWindows(n, size, |chunks|);
      FirstIsNatural(|chunks|, size);
      SizeFacts(size);
      var startChar, endChar := offsets[i].0, offsets[end - 1].1;
      var c := Chunk(chunkIndex, Slice(text, startChar, endChar), end - i, page, startChar, endChar);
      assert c == all[|chunks|] && c in all;
      if startChar + |c.text| != endChar {
        return None;
      }
      chunks := chunks + [c];
      chunkIndex := chunkIndex + 1;
      i := i + Stride(size);
    }
    if size >= 16 {
      SizeFacts(size);
      CountedWindows(n, size, |chunks|);
    }
    r := Some(chunks);
  }

  // ---- Chunks of a text ----------------------------------------------------

  function Ranges(text: string, tokens: seq<seq<Byte>>): (r: seq<(nat, nat)>)
    requires Tokenizes(tokens, text)
    ensures |r| == |tokens| && AreRanges(text, tokens, r)
  {
    seq(|tokens|, i requires 0 <= i < |tokens| && Tokenizes(tokens, text) => Range(text, tokens, i))
  }

  /** What the window relies on: ranges in order that span the whole text. */
  ghost predicate Ordered(text: string, offsets: seq<(nat, nat)>) {
    && (forall i | 0 <= i < |offsets| :: offsets[i].0 < offsets[i].1 <= |text|)
    && (forall i, j | 0 <= i <= j < |offsets| :: offsets[i].0 <= offsets[j].0 && offsets[i].1 <= offsets[j].1)
    && (offsets != [] ==> offsets[0].0 == 0 && offsets[|offsets| - 1].1 == |text|)
  }

  lemma RangesAreOrdered(text: string, tokens: seq<seq<Byte>>)
    requires Tokenizes(tokens, text)
    ensures Ordered(text, Ranges(text, tokens))
  {
    var r := Ranges(text, tokens);
    forall i, j | 0 <= i <= j < |r| ensures r[i].0 <= r[j].0 && r[i].1 <= r[j].1 {
      RangesOrdered(text, tokens, i, j);
    }
    if tokens != [] {
      RangesAdjoin(text, tokens, 0);
      RangesAdjoin(text, tokens, |tokens| - 1);
    }
  }

  function FlatChunks(text: string, tokens: seq<seq<Byte>>, page: Option<int>, start: nat, size: nat): seq<Chunk>
    requires Tokenizes(tokens, text)
  {
    Windows(text, Ranges(text, tokens), page, start, size)
  }

  /** Where the characters of window k start and end. */
  lemma ChunkSpan(text: string, offsets: seq<(nat, nat)>, page: Option<int>, start: nat, size: nat, k: nat)
    requires Ordered(text, offsets) && k < ChunkCount(|offsets|, size)
    ensures 0 <= First(k, size) < End(k, |offsets|, size) <= |offsets|
    ensures var c := WindowAt(text, offsets, page, start, size, k);
      && c.startChar == offsets[First(k, size)].0
      && c.endChar == offsets[End(k, |offsets|, size) - 1].1
      && IsSlice(text, c)
  {
    WindowBounds(|offsets|, size, k);
    var i, j := First(k, size), End(k, |offsets|, size) - 1;
    assert offsets[i].0 <= offsets[j].0 < offsets[j].1;
  }

  predicate IsSlice(text: string, c: Chunk) {
    c.startChar < c.endChar <= |text| && c.text == text[c.startChar..c.endChar]
  }

  /** Slices from the start of the text, each starting inside or right behind its
      predecessor and not ending before it. */
  ghost predicate Tiles(text: string, chunks: seq<Chunk>) {
    && (forall c | c in chunks :: IsSlice(text, c))
    && (chunks != [] ==> chunks[0].startChar == 0)
    && (forall k | 0 <= k < |chunks| - 1 ::
        chunks[k].startChar <= chunks[k + 1].startChar <= chunks[k].endChar <= chunks[k + 1].endChar)
  }

  lemma SpansOverlap(text: string, offsets: seq<(nat, nat)>, page: Option<int>, start: nat, size: nat, k: nat)
    requires Ordered(text, offsets) && k + 1 < ChunkCount(|offsets|, size)
    ensures var c := WindowAt(text, offsets, page, start, size, k);
      var d := WindowAt(text, offsets, page, start, size, k + 1);
      c.startChar <= d.startChar <= c.endChar <= d.endChar
  {
    var n := |offsets|;
    ChunkSpan(text, offsets, page, start, size, k);
    ChunkSpan(text, offsets, page, start, size, k + 1);
    SizeFacts(size);
    FirstIsNatural(k, size);
    var a, b, c, d := First(k, size), First(k + 1, size), End(k, n, size) - 1, End(k + 1, n, size) - 1;
    assert 0 <= a <= b <= c <= d < n;
    assert offsets[a].0 <= offsets[b].0 <= offsets[c].0 < offsets[c].1 <= offsets[d].1;
  }

  lemma WindowsTile(text: string, offsets: seq<(nat, nat)>, page: Option<int>, start: nat, size: nat)
    requires Ordered(text, offsets)
    ensures Tiles(text, Windows(text, offsets, page, start, size))
  {
    var cs := Windows(text, offsets, page, start, size);
    forall k | 0 <= k < |cs| ensures IsSlice(text, cs[k]) {
      ChunkSpan(text, offsets, page, start, size, k);
    }
    forall k | 0 <= k < |cs| - 1
      ensures cs[k].startChar <= cs[k + 1].startChar <= cs[k].endChar <= cs[k + 1].endChar
    {
      SpansOverlap(text, offsets, page, start, size, k);
    }
  }

  /** Joins chunks after cutting from each what its predecessor already has. */
  function Stitch(chunks: seq<Chunk>): string {
    if chunks == [] then []
    else if |chunks| == 1 then chunks[0].text
    else
      var last, before := chunks[|chunks| - 1], chunks[|chunks| - 2];
      var cut := if before.endChar > last.startChar then before.endChar - last.startChar else 0;
      Stitch(chunks[..|chunks| - 1]) + Slice(last.text, cut, |last.text|)
  }

  lemma {:induction false} StitchGivesPrefix(text: string, cs: seq<Chunk>, m: nat)
    requires Tiles(text, cs) && 0 < m <= |cs|
    ensures cs[m - 1].endChar <= |text| && Stitch(cs[..m]) == text[..cs[m - 1].endChar]
  {
    assert cs[m - 1] in cs;
    if m > 1 {
      StitchGivesPrefix(text, cs, m - 1);
      assert cs[..m][..m - 1] == cs[..m - 1];
      var before, last := cs[m - 2], cs[m - 1];
      assert before.startChar <= last.startChar <= before.endChar <= last.endChar by {
        assert m - 2 < |cs| - 1 && cs[m - 2 + 1] == last;
      }
      var e0, s1, e1 := before.endChar, last.startChar, last.endChar;
      assert Slice(last.text, e0 - s1, |last.text|) == text[e0..e1];
      assert text[..e0] + text[e0..e1] == text[..e1];
    }
  }

  /** The chunks of a text with at least MinTokens tokens give back the whole text from
      size 60 on; below, all of it but the characters of a tail of fewer than
      MinTokens - Overlap tokens. */
  lemma Reconstruction(text: string, tokens: seq<seq<Byte>>, page: Option<int>, start: nat, size: nat)
    returns (covered: nat)
    requires Tokenizes(tokens, text) && size >= 16 && |tokens| >= MinTokens(size)
    ensures 0 < covered <= |tokens|
    ensures Stitch(FlatChunks(text, tokens, page, start, size)) == text[..Range(text, tokens, covered - 1).1]
    ensures covered < |tokens| ==> |tokens| - covered < MinTokens(size) - Overlap(size)
    ensures covered == |tokens| || size >= 60 ==> Stitch(FlatChunks(text, tokens, page, start, size)) == text
  {
    var offsets := Ranges(text, tokens);
    RangesAreOrdered(text, tokens);
    covered := StitchedWindows(text, offsets, page, start, size);
    if covered == |tokens| {
      assert text[..|text|] == text;
    }
  }

  lemma StitchedWindows(text: string, offsets: seq<(nat, nat)>, page: Option<int>, start: nat, size: nat)
    returns (covered: nat)
    requires Ordered(text, offsets) && size >= 16 && |offsets| >= MinTokens(size)
    ensures 0 < covered <= |offsets|
    ensures Stitch(Windows(text, offsets, page, start, size)) == text[..offsets[covered - 1].1]
    ensures covered < |offsets| ==> |offsets| - covered < MinTokens(size) - Overlap(size)
    ensures size >= 60 ==> covered == |offsets|
  {
    var n, cs := |offsets|, Windows(text, offsets, page, start, size);
    var m := ChunkCount(n, size);
    SizeFacts(size);
    CountedWindows(n, size, 0);
    TailIsShort(n, size);
    covered := End(m - 1, n, size);
    ChunkSpan(text, offsets, page, start, size, m - 1);
    WindowsTile(text, offsets, page, start, size);
    StitchGivesPrefix(text, cs, m);
    assert cs[..m] == cs;
  }

  /** Shorter texts and sizes below 16 give no chunk at all. */
  lemma NoChunks(text: string, tokens: seq<seq<Byte>>, page: Option<int>, start: nat, size: nat)
    requires Tokenizes(tokens, text)
    ensures FlatChunks(text, tokens, page, start, size) == [] <==> size < 16 || |tokens| < MinTokens(size)
  {
    if size >= 16 {
      CountedWindows(|tokens|, size, 0);
    }
  }

  // ---- Documents -----------------------------------------------------------

  type Tokenizer = string -> seq<seq<Byte>>

  ghost predicate Faithful(tok: Tokenizer) {
    forall text :: Tokenizes(tok(text), text)
  }

  datatype Page = Page(number: int, text: string)

  datatype ParsedDocument = ParsedDocument(rawText: string, pages: seq<Page>)

  /** _chunk_flat: the integrity check never fails on offsets built for the text. */
  method ChunkFlat(text: string, tok: Tokenizer, page: Option<int>, size: nat) returns (chunks: seq<Chunk>)
    requires Faithful(tok)
    ensures chunks == FlatChunks(text, tok(text), page, 0, size)
  {
    var tokens := tok(text);
    var offsets := BuildCharOffsets(text, tokens);
    assert offsets == Ranges(text, tokens);
    var r := SlidingWindow(text, offsets, page, 0, size);
    RangesAreOrdered(text, tokens);
    WindowsTile(text, offsets, page, 0, size);
    assert forall c | c in Windows(text, offsets, page, 0, size) :: IsSlice(text, c) ==> Intact(c);
    chunks := r.value;
  }

  /** Page by page, with chunk indices running on across pages. */
  ghost function PagedChunks(pages: seq<Page>, tok: Tokenizer, size: nat): seq<Chunk>
    requires Faithful(tok)
  {
    if pages == [] then []
    else
      var before, last := PagedChunks(pages[..|pages| - 1], tok, size), pages[|pages| - 1];
      before + FlatChunks(last.text, tok(last.text), Some(last.number), |before|, size)
  }

  /** The same windows numbered from another start. */
  lemma Renumbered(text: string, offsets: seq<(nat, nat)>, page: Option<int>, start: nat, size: nat)
    ensures var from0, cs := Windows(text, offsets, page, 0, size), Windows(text, offsets, page, start, size);
      |cs| == |from0| && forall k | 0 <= k < |cs| :: cs[k] == from0[k].(index := start + k)
  {
  }

  lemma {:induction false} EarlierPagesFirst(pages: seq<Page>, tok: Tokenizer, size: nat, p: nat)
    requires Faithful(tok) && p <= |pages|
    ensures PagedChunks(pages[..p], tok, size) <= PagedChunks(pages, tok, size)
    decreases |pages|
  {
    if p < |pages| {
      var init := pages[..|pages| - 1];
      assert init[..p] == pages[..p];
      EarlierPagesFirst(init, tok, size, p);
    } else {
      assert pages[..p] == pages;
    }
  }

  lemma OnePageMore(pages: seq<Page>, tok: Tokenizer, size: nat, p: nat)
    requires Faithful(tok) && p < |pages|
    ensures var before := PagedChunks(pages[..p], tok, size);
      PagedChunks(pages[..p + 1], tok, size) ==
        before + FlatChunks(pages[p].text, tok(pages[p].text), Some(pages[p].number), |before|, size)
  {
    assert pages[..p + 1][..p] == pages[..p] && pages[..p + 1][p] == pages[p];
  }

  /** Behind the chunks of the pages before it come all the chunks of a page, as if it were
      a text of its own, but for the running index. */
  lemma EveryPageIsChunked(pages: seq<Page>, tok: Tokenizer, size: nat, p: nat)
    requires Faithful(tok) && p < |pages|
    ensures var before, own := |PagedChunks(pages[..p], tok, size)|,
                               FlatChunks(pages[p].text, tok(pages[p].text), Some(pages[p].number), 0, size);
      && before + |own| == |PagedChunks(pages[..p + 1], tok, size)| <= |PagedChunks(pages, tok, size)|
      && forall k | 0 <= k < |own| :: PagedChunks(pages, tok, size)[before + k] == own[k].(index := before + k)
  {
    EarlierPagesFirst(pages, tok, size, p + 1);
    OnePageMore(pages, tok, size, p);
    var before := |PagedChunks(pages[..p], tok, size)|;
    var own := FlatChunks(pages[p].text, tok(pages[p].text), Some(pages[p].number), 0, size);
    Renumbered(pages[p].text, Ranges(pages[p].text, tok(pages[p].text)), Some(pages[p].number), before, size);
    PrefixAt(PagedChunks(pages[..p], tok, size),
             FlatChunks(pages[p].text, tok(pages[p].text), Some(pages[p].number), before, size),
             PagedChunks(pages[..p + 1], tok, size), PagedChunks(pages, tok, size));
  }

  lemma PrefixAt(a: seq<Chunk>, b: seq<Chunk>, joined: seq<Chunk>, all: seq<Chunk>)
    requires joined == a + b && joined <= all
    ensures |joined| == |a| + |b| <= |all|
    ensures forall k | 0 <= k < |b| :: all[|a| + k] == b[k]
  {
    assert forall k | 0 <= k < |b| :: joined[|a| + k] == b[k];
  }

  method ChunkWithPages(pages: seq<Page>, tok: Tokenizer, size: nat) returns (all: seq<Chunk>)
    requires Faithful(tok)
    ensures all == PagedChunks(pages, tok, size)
  {
    all := [];
    for p := 0 to |pages|
      invariant all == PagedChunks(pages[..p], tok, size)
    {
      assert pages[..p + 1][..p] == pages[..p];
      all := AppendPage(all, pages[p], tok, size);
    }
    assert pages[..|pages|] == pages;
  }

  /** One round of the loop over pages; chunkIndex is always the number of chunks so far. */
  method AppendPage(before: seq<Chunk>, page: Page, tok: Tokenizer, size: nat) returns (all: seq<Chunk>)
    requires Faithful(tok)
    ensures all == before + FlatChunks(page.text, tok(page.text), Some(page.number), |before|, size)
  {
    all := before;
    var chunkIndex := |before|;
    var pageChunks := ChunkFlat(page.text, tok, Some(page.number), size);
    ghost var numbered := FlatChunks(page.text, tok(page.text), Some(page.number), |before|, size);
    Renumbered(page.text, Ranges(page.text, tok(page.text)), Some(page.number), |before|, size);
    for j := 0 to |pageChunks|
      invariant chunkIndex == |before| + j && all == before + numbered[..j]
    {
      all := all + [pageChunks[j].(index := chunkIndex)];
      chunkIndex := chunkIndex + 1;
    }
    assert numbered[..|pageChunks|] == numbered;
  }

  /** Chunk i has index i and is a slice of a page, which it names. */
  lemma {:induction false} PagedChunksAreIndexedSlices(pages: seq<Page>, tok: Tokenizer, size: nat, i: nat)
    returns (p: nat)
    requires Faithful(tok) && i < |PagedChunks(pages, tok, size)|
    ensures PagedChunks(pages, tok, size)[i].index == i
    ensures p < |pages| && IsSlice(pages[p].text, PagedChunks(pages, tok, size)[i])
    ensures PagedChunks(pages, tok, size)[i].page == Some(pages[p].number)
  {
    p := |pages| - 1;
    var before, last := PagedChunks(pages[..p], tok, size), pages[p];
    if i < |before| {
      p := PagedChunksAreIndexedSlices(pages[..p], tok, size, i);
    } else {
      FlatChunkAt(last.text, tok(last.text), Some(last.number), |before|, size, i - |before|);
    }
  }

  lemma FlatChunkAt(text: string, tokens: seq<seq<Byte>>, page: Option<int>, start: nat, size: nat, k: nat)
    requires Tokenizes(tokens, text) && k < |FlatChunks(text, tokens, page, start, size)|
    ensures var c := FlatChunks(text, tokens, page, start, size)[k];
      c.index == start + k && c.page == page && IsSlice(text, c)
  {
    RangesAreOrdered(text, tokens);
    ChunkSpan(text, Ranges(text, tokens), page, start, size, k);
  }

  /** chunk_document: nothing for blank text, else by page if pages are known. */
  method ChunkDocument(doc: ParsedDocument, tok: Tokenizer, size: nat) returns (chunks: seq<Chunk>)
    requires Faithful(tok)
    ensures Strip(doc.rawText) == [] ==> chunks == []
    ensures Strip(doc.rawText) != [] && doc.pages != [] ==> chunks == PagedChunks(doc.pages, tok, size)
    ensures Strip(doc.rawText) != [] && doc.pages == [] ==>
      chunks == FlatChunks(doc.rawText, tok(doc.rawText), None, 0, size)
  {
    if Strip(doc.rawText) == [] {
      return [];
    }
    if doc.pages != [] {
      chunks := ChunkWithPages(doc.pages, tok, size);
    } else {
      chunks := ChunkFlat(doc.rawText, tok, None, size);
    }
  }
}
