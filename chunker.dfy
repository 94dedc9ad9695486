/**
 * Fixed-window splitting of a document's text into overlapping chunks
 * (`chunk_text` in backend/services/chunker.py).
 *
 * Windows of `size` characters start at 0, step, 2*step, ... where
 * step = size - overlap; the last windows are cut short by the end of the text.
 */
module Chunker {
  import opened Wrappers

  /** `ValueError("Overlap must be smaller than size.")` */
  datatype ChunkError = OverlapNotSmallerThanSize

  /** Python's `text[start:start + size]` for non-negative bounds: both ends clamp to the text. */
  function Window(text: string, size: nat, start: nat): string {
    text[Min(start, |text|) .. Min(start + size, |text|)]
  }

  /** Number of windows the loop produces: the ceiling of n / step. */
  function ChunkCount(n: nat, step: nat): nat
    requires 0 < step
  {
    (n + step - 1) / step
  }

  /** Reference definition of the chunk sequence: window i starts at i * step. */
  function Windows(text: string, size: nat, step: nat): (ws: seq<string>)
    requires 0 < step
    ensures forall i :: 0 <= i < |ws| ==> |ws[i]| <= size
  {
    seq(ChunkCount(|text|, step), i requires 0 <= i => Window(text, size, i * step))
  }

  /**
   * The loop of `chunk_text`. An overlap not smaller than the size fails before
   * any chunk is produced; otherwise the result is exactly `Windows`. A negative
   * overlap is allowed (the windows then leave gaps); a negative size below the
   * overlap is not, since Python would read its slice ends from the end of the text.
   */
  method ChunkText(text: string, size: int, overlap: int) returns (r: Result<seq<string>, ChunkError>)
    requires 0 <= size || overlap >= size
    ensures overlap >= size <==> r.Failure?
    ensures overlap >= size ==> r == Failure(OverlapNotSmallerThanSize)
    ensures overlap < size ==> r == Success(Windows(text, size, size - overlap))
  {
    if overlap >= size {
      return Failure(OverlapNotSmallerThanSize);
    }
    var step := size - overlap;
    var chunks: seq<string> := [];
    var start := 0;
    while start < |text|
      invariant start == |chunks| * step
      invariant chunks == [] || (|chunks| - 1) * step < |text|
      invariant forall i :: 0 <= i < |chunks| ==> chunks[i] == Window(text, size, i * step)
      decreases |text| - start
    {
      var end := start + size;
      assert text[start .. if end <= |text| then end else |text|] == Window(text, size, |chunks| * step);
      MulSucc(|chunks|, step);
      chunks := chunks + [text[start .. if end <= |text| then end else |text|]];
      start := start + step;
    }
    CeilingUnique(|text|, step, |chunks|);
    assert chunks == Windows(text, size, step);
    return Success(chunks);
  }

  // ---------------------------------------------------------------------------
  // Arithmetic about the window starts

  lemma MulSucc(a: nat, b: nat)
    ensures (a + 1) * b == a * b + b
  {}

  lemma {:induction false} MulLess(a: nat, b: nat, s: nat)
    requires 0 < s && a * s < b * s
    ensures a < b
  {}

  /** The count characterised by "covers the text" and "no window starts past it" is the ceiling. */
  lemma CeilingUnique(n: nat, step: nat, c: nat)
    requires 0 < step
    requires c * step >= n
    requires c == 0 || (c - 1) * step < n
    ensures c == ChunkCount(n, step)
  {
    var q := (n + step - 1) / step;
    var m := (n + step - 1) % step;
    assert n + step - 1 == q * step + m;
    if q > 0 {
      MulSucc(q - 1, step);
      assert (q - 1) * step < c * step;
      MulLess(q - 1, c, step);
    }
    if c > 0 {
      MulSucc(c - 1, step);
      MulSucc(q, step);
      assert c * step < (q + 1) * step;
      MulLess(c, q + 1, step);
    } else {
      assert n == 0;
    }
  }

  /** The windows cover the text, and each starts inside it. */
  lemma CeilingBounds(n: nat, step: nat)
    requires 0 < step
    ensures ChunkCount(n, step) * step >= n
    ensures n == 0 <==> ChunkCount(n, step) == 0
    ensures 0 < ChunkCount(n, step) ==> (ChunkCount(n, step) - 1) * step < n
  {
    var q := ChunkCount(n, step);
    var m := (n + step - 1) % step;
    assert n + step - 1 == q * step + m;
    if q > 0 {
      MulSucc(q - 1, step);
    }
  }

  lemma MulMono(a: nat, b: nat, s: nat)
    requires a <= b
    ensures a * s <= b * s
  {
    assert b * s == a * s + (b - a) * s;
  }

  lemma {:induction false} StartInside(n: nat, step: nat, i: nat)
    requires 0 < step && i < ChunkCount(n, step)
    ensures i * step < n
  {
    CeilingBounds(n, step);
    var c := ChunkCount(n, step);
    MulMono(i, c - 1, step);
  }

  // ---------------------------------------------------------------------------
  // Properties of the chunk sequence

  /** Empty text gives no chunks; non-empty text gives ceil(|text| / step) chunks. */
  lemma {:induction false} ChunkCountIsCeiling(text: string, size: nat, step: nat)
    requires 0 < step
    ensures |Windows(text, size, step)| * step >= |text|
    ensures |Windows(text, size, step)| == 0 <==> text == []
    ensures |Windows(text, size, step)| > 0 ==> (|Windows(text, size, step)| - 1) * step < |text|
  {
    CeilingBounds(|text|, step);
  }

  /** Chunk i is the slice of the text from i * step to i * step + size, cut at the end; it is never empty. */
  lemma {:induction false} ChunkShape(text: string, size: nat, step: nat, i: nat)
    requires 0 < step <= size && i < |Windows(text, size, step)|
    ensures i * step < |text|
    ensures Windows(text, size, step)[i] == text[i * step .. Min(i * step + size, |text|)]
    ensures 0 < |Windows(text, size, step)[i]| <= size
  {
    StartInside(|text|, step, i);
  }

  /** A full window starting at `a` ends with the first `overlap` characters of the window `size - overlap` further on. */
  lemma WindowOverlap(text: string, size: nat, overlap: nat, a: nat)
    requires overlap < size && a + size <= |text|
    ensures overlap <= |Window(text, size, a + size - overlap)|
    ensures Window(text, size, a)[size - overlap..] == Window(text, size, a + size - overlap)[..overlap]
  {}

  /**
   * When chunk i is full and chunk i+1 exists, the last `overlap` characters of
   * chunk i are the first `overlap` characters of chunk i+1.
   */
  lemma {:induction false} ConsecutiveChunksOverlap(text: string, size: nat, overlap: nat, i: nat)
    requires overlap < size
    requires i + 1 < |Windows(text, size, size - overlap)|
    requires |Windows(text, size, size - overlap)[i]| == size
    ensures overlap <= |Windows(text, size, size - overlap)[i + 1]|
    ensures Windows(text, size, size - overlap)[i][size - overlap..] == Windows(text, size, size - overlap)[i + 1][..overlap]
  {
    var step := size - overlap;
    var ws := Windows(text, size, step);
    var a := i * step;
    MulSucc(i, step);
    assert ws[i] == Window(text, size, a);
    assert ws[i + 1] == Window(text, size, a + step);
    StartInside(|text|, step, i);
    WindowOverlap(text, size, overlap, a);
  }

  /** More than one trailing chunk can be shorter than `size`: "abcde" with size 4 and overlap 3. */
  lemma SeveralShortTrailingChunks()
    ensures Windows("abcde", 4, 1) == ["abcd", "bcde", "cde", "de", "e"]
  {
    var ws := Windows("abcde", 4, 1);
    assert |ws| == 5;
    assert ws[0] == "abcd";
    assert ws[1] == "bcde";
    assert ws[2] == "cde";
    assert ws[3] == "de";
    assert ws[4] == "e";
  }

  // ---------------------------------------------------------------------------
  // Reconstruction

  /** Python's `s[k:]` for k >= 0: empty once k passes the end. */
  function Drop(s: string, k: nat): string {
    if k <= |s| then s[k..] else []
  }

  /** Chunk 0 followed by every later chunk with its first `overlap` characters removed. */
  function Reassemble(cs: seq<string>, overlap: nat): string
    decreases |cs|
  {
    if |cs| == 0 then []
    else if |cs| == 1 then cs[0]
    else Reassemble(cs[..|cs| - 1], overlap) + Drop(cs[|cs| - 1], overlap)
  }

  /** Appending the next window minus its overlap extends the covered prefix by one window. */
  lemma ReassembleStep(text: string, size: nat, overlap: nat, a: nat)
    requires overlap < size && a < |text|
    ensures text[..Min(a + overlap, |text|)] + Drop(Window(text, size, a), overlap)
         == text[..Min(a + size, |text|)]
  {
    if a + overlap <= |text| {
      assert Drop(Window(text, size, a), overlap) == text[a + overlap .. Min(a + size, |text|)];
    }
  }

  /** One more window: if the first m - 1 chunks rebuild the text up to a + overlap, the first m rebuild it up to a + size. */
  lemma ReassembleExtend(text: string, size: nat, overlap: nat, ws: seq<string>, m: nat, a: nat)
    requires overlap < size && 2 <= m <= |ws| && a < |text|
    requires ws[m - 1] == Window(text, size, a)
    requires Reassemble(ws[..m - 1], overlap) == text[..Min(a + overlap, |text|)]
    ensures Reassemble(ws[..m], overlap) == text[..Min(a + size, |text|)]
  {
    assert ws[..m][..m - 1] == ws[..m - 1];
    ReassembleStep(text, size, overlap, a);
  }

  /**
   * Chunks `ws` whose window i starts at `starts[i]`, each start `step` past the
   * previous one and inside the text: the first m of them, overlaps removed,
   * rebuild the text up to the end of window m - 1.
   */
  lemma {:induction false} ReassemblePrefix(text: string, size: nat, overlap: nat, ws: seq<string>, starts: seq<nat>, m: nat)
    requires overlap < size && 1 <= m <= |ws| == |starts|
    requires starts[0] == 0
    requires forall i :: 0 <= i < |ws| ==> starts[i] < |text| && ws[i] == Window(text, size, starts[i])
    requires forall i, j {:trigger starts[i], starts[j]} :: 0 <= i && j == i + 1 < |starts| ==> starts[j] == starts[i] + (size - overlap)
    ensures Reassemble(ws[..m], overlap) == text[..Min(starts[m - 1] + size, |text|)]
  {
    if m == 1 {
      assert ws[..1] == [ws[0]];
    } else {
      ReassemblePrefix(text, size, overlap, ws, starts, m - 1);
      var a := starts[m - 1];
      assert a == starts[m - 2] + (size - overlap);
      assert a < |text| && ws[m - 1] == Window(text, size, a);
      ReassembleExtend(text, size, overlap, ws, m, a);
    }
  }

  /** The start of every window, in order. */
  function Starts(count: nat, step: nat): (starts: seq<nat>)
    ensures |starts| == count
    ensures forall i :: 0 <= i < count ==> starts[i] == i * step
  {
    seq(count, i requires 0 <= i => i * step)
  }

  /** Window i starts at `Starts(..)[i]`, inside the text, and each start is one step past the previous. */
  lemma {:induction false} WindowStarts(text: string, size: nat, step: nat)
    requires 0 < step
    ensures var ws := Windows(text, size, step);
      var starts := Starts(|ws|, step);
      && (|ws| > 0 ==> starts[0] == 0)
      && (forall i :: 0 <= i < |ws| ==> starts[i] < |text| && ws[i] == Window(text, size, starts[i]))
      && (forall i, j {:trigger starts[i], starts[j]} :: 0 <= i && j == i + 1 < |starts| ==> starts[j] == starts[i] + step)
  {
    var ws := Windows(text, size, step);
    var starts := Starts(|ws|, step);
    forall i | 0 <= i < |ws| ensures starts[i] < |text| && ws[i] == Window(text, size, starts[i]) {
      StartInside(|text|, step, i);
    }
    forall i, j | 0 <= i && j == i + 1 < |starts| ensures starts[j] == starts[i] + step {
      MulSucc(i, step);
    }
  }

  /** Removing the overlaps and concatenating gives back the text exactly. */
  lemma {:induction false} ReassembleChunks(text: string, size: nat, overlap: nat)
    requires overlap < size
    ensures Reassemble(Windows(text, size, size - overlap), overlap) == text
  {
    var step := size - overlap;
    var ws := Windows(text, size, step);
    ChunkCountIsCeiling(text, size, step);
    if |ws| > 0 {
      var starts := Starts(|ws|, step);
      WindowStarts(text, size, step);
      ReassemblePrefix(text, size, overlap, ws, starts, |ws|);
      assert ws[..|ws|] == ws;
      MulSucc(|ws| - 1, step);
      assert starts[|ws| - 1] + size >= |text|;
    }
  }
}
