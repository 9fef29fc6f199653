/**
 * The document chunker `splitTextIntoChunks`: a window of `chunkSize`
 * characters slides over the text, its start advancing by
 * `chunkSize - chunkOverlap` while it is still inside the text. The same
 * function appears in both controller files; the upload handlers call it with
 * 500 and 100, its defaults are 512 and 50.
 */
module Chunker {
  import opened Js

  const DefaultChunkSize: int := 512
  const DefaultChunkOverlap: int := 50
  const UploadChunkSize: int := 500
  const UploadChunkOverlap: int := 100

  lemma MulMonotone(a: int, b: int, step: int)
    requires a <= b && step > 0
    ensures a * step <= b * step
  {
    assert b * step - a * step == (b - a) * step;
  }

  lemma MulSucc(n: int, step: int)
    ensures (n + 1) * step == n * step + step
  {
  }

  /** The number of windows, ceil(n / step), and what makes it so. */
  function ChunkCount(n: nat, step: int): (c: nat)
    requires step > 0
    ensures c * step >= n
    ensures c > 0 ==> (c - 1) * step < n
    ensures c == 0 <==> n == 0
  {
    var q := (n + step - 1) / step;
    assert n + step - 1 == q * step + (n + step - 1) % step;
    assert (q - 1) * step == q * step - step;
    q
  }

  /** ChunkCount is the only count with the two properties above. */
  lemma CeilUnique(k: nat, n: nat, step: int)
    requires step > 0
    requires k * step >= n && (k > 0 ==> (k - 1) * step < n)
    ensures k == ChunkCount(n, step)
  {
    var c := ChunkCount(n, step);
    if k < c { MulMonotone(k, c - 1, step); }
    if c < k { MulMonotone(c, k - 1, step); }
  }

  /** Window `i` as the loop produces it: `text.slice(start, Math.min(start + chunkSize, text.length))`. */
  function Chunk(text: string, chunkSize: int, chunkOverlap: int, i: nat): string
    requires chunkSize > chunkOverlap
  {
    var start := i * (chunkSize - chunkOverlap);
    Slice(text, start, Min(start + chunkSize, |text|))
  }

  /** The whole output, window by window, with the closed-form count. */
  function Chunks(text: string, chunkSize: int, chunkOverlap: int): (r: seq<string>)
    requires chunkSize > chunkOverlap
  {
    seq(ChunkCount(|text|, chunkSize - chunkOverlap),
        i requires 0 <= i => Chunk(text, chunkSize, chunkOverlap, i))
  }

  /**
   * The loop of the source. It terminates only when `chunkSize > chunkOverlap`
   * (otherwise `start` never advances), which the source leaves to its callers.
   */
  method SplitTextIntoChunks(text: string, chunkSize: int := DefaultChunkSize,
                             chunkOverlap: int := DefaultChunkOverlap)
    returns (chunks: seq<string>)
    requires chunkSize > chunkOverlap
    ensures |chunks| == ChunkCount(|text|, chunkSize - chunkOverlap)
    ensures forall i :: 0 <= i < |chunks| ==> chunks[i] == Chunk(text, chunkSize, chunkOverlap, i)
    ensures chunks == Chunks(text, chunkSize, chunkOverlap)
  {
    var step := chunkSize - chunkOverlap;
    chunks := [];
    var start := 0;
    while start < |text|
      invariant start == |chunks| * step
      invariant |chunks| > 0 ==> (|chunks| - 1) * step < |text|
      invariant forall i :: 0 <= i < |chunks| ==> chunks[i] == Chunk(text, chunkSize, chunkOverlap, i)
      decreases |text| - start
    {
      var end := Min(start + chunkSize, |text|);
      MulSucc(|chunks|, step);
      chunks := chunks + [Slice(text, start, end)];
      start := start + step;
    }
    CeilUnique(|chunks|, |text|, step);
  }

  /** Every window starts inside the text. */
  lemma ChunkStartInside(n: nat, step: int, i: nat)
    requires step > 0 && i < ChunkCount(n, step)
    ensures i * step < n
  {
    MulMonotone(i, ChunkCount(n, step) - 1, step);
  }

  /**
   * With a non-negative overlap, window `i` is exactly
   * `text[i*step .. min(i*step + chunkSize, |text|)]`, non-empty and at most
   * `chunkSize` long.
   */
  lemma ChunkWindow(text: string, chunkSize: int, chunkOverlap: int, i: nat)
    requires chunkSize > chunkOverlap >= 0
    requires i < |Chunks(text, chunkSize, chunkOverlap)|
    ensures var start := i * (chunkSize - chunkOverlap);
      && start < |text|
      && Chunks(text, chunkSize, chunkOverlap)[i] == text[start..Min(start + chunkSize, |text|)]
      && 0 < |Chunks(text, chunkSize, chunkOverlap)[i]| <= chunkSize
  {
    ChunkStartInside(|text|, chunkSize - chunkOverlap, i);
  }

  /** Empty text yields no windows. */
  lemma EmptyTextNoChunks(chunkSize: int, chunkOverlap: int)
    requires chunkSize > chunkOverlap
    ensures Chunks("", chunkSize, chunkOverlap) == []
  {
  }

  /** At most the first `step` characters of a string. */
  function Take(s: string, step: int): (r: string)
    requires step > 0
    ensures |r| == Min(step, |s|) && r == s[..|r|]
  {
    s[..Min(step, |s|)]
  }

  /** The fresh part of every window in turn: what each window adds over its predecessor. */
  function Reassemble(cs: seq<string>, step: int): string
    requires step > 0
  {
    if cs == [] then "" else Reassemble(cs[..|cs| - 1], step) + Take(cs[|cs| - 1], step)
  }

  /** The fresh part of a window that starts inside the text. */
  lemma TakeOfWindow(text: string, start: nat, chunkSize: int, step: int)
    requires 0 < step <= chunkSize && start < |text|
    ensures Take(text[start..Min(start + chunkSize, |text|)], step) == text[start..Min(start + step, |text|)]
  {
  }

  /**
   * Windows of `chunkSize` characters at the given starts, each start inside
   * the text and `step` after the previous one, the first at 0.
   */
  ghost predicate WindowAt(text: string, window: string, start: nat, chunkSize: int)
  {
    0 <= chunkSize && start < |text| && window == text[start..Min(start + chunkSize, |text|)]
  }

  ghost predicate SlidingWindows(text: string, cs: seq<string>, starts: seq<nat>, chunkSize: int, step: int)
  {
    && chunkSize > 0
    && |starts| == |cs|
    && (|cs| > 0 ==> starts[0] == 0)
    && (forall i :: 0 < i < |cs| ==> starts[i] == starts[i - 1] + step)
    && (forall i :: 0 <= i < |cs| ==> WindowAt(text, cs[i], starts[i], chunkSize))
  }

  lemma {:induction false} ReassembleWindows(text: string, cs: seq<string>, starts: seq<nat>, chunkSize: int, step: int)
    requires 0 < step <= chunkSize
    requires SlidingWindows(text, cs, starts, chunkSize, step)
    ensures Reassemble(cs, step) == text[..if cs == [] then 0 else Min(starts[|cs| - 1] + step, |text|)]
    decreases |cs|
  {
    if cs != [] {
      var k := |cs|;
      var start := starts[k - 1];
      var init := cs[..k - 1];
      SlidingWindowsInit(text, cs, starts, chunkSize, step);
      ReassembleWindows(text, init, starts[..k - 1], chunkSize, step);
      assert Reassemble(init, step) == text[..start];
      assert Reassemble(cs, step) == Reassemble(init, step) + Take(cs[k - 1], step);
      ReassembleStep(text, Reassemble(init, step), cs[k - 1], start, chunkSize, step);
    }
  }

  /** One more window extends the reassembled prefix by the window's fresh part. */
  lemma ReassembleStep(text: string, prefix: string, window: string, start: nat, chunkSize: int, step: int)
    requires 0 < step <= chunkSize && start < |text|
    requires prefix == text[..start] && window == text[start..Min(start + chunkSize, |text|)]
    ensures prefix + Take(window, step) == text[..Min(start + step, |text|)]
  {
    TakeOfWindow(text, start, chunkSize, step);
    assert text[..start] + text[start..Min(start + step, |text|)] == text[..Min(start + step, |text|)];
  }

  /** Dropping the last window leaves sliding windows that end where the last one starts. */
  lemma SlidingWindowsInit(text: string, cs: seq<string>, starts: seq<nat>, chunkSize: int, step: int)
    requires 0 < step <= chunkSize
    requires SlidingWindows(text, cs, starts, chunkSize, step) && cs != []
    ensures SlidingWindows(text, cs[..|cs| - 1], starts[..|cs| - 1], chunkSize, step)
    ensures |cs| > 1 ==> Min(starts[|cs| - 2] + step, |text|) == starts[|cs| - 1]
    ensures |cs| == 1 ==> starts[0] == 0
    ensures WindowAt(text, cs[|cs| - 1], starts[|cs| - 1], chunkSize)
  {
    var k := |cs|;
    var cs', starts' := cs[..k - 1], starts[..k - 1];
    forall i | 0 < i < |cs'| ensures starts'[i] == starts'[i - 1] + step {
      assert starts'[i] == starts[i] && starts'[i - 1] == starts[i - 1];
    }
    forall i | 0 <= i < |cs'| ensures WindowAt(text, cs'[i], starts'[i], chunkSize) {
      assert starts'[i] == starts[i] && cs'[i] == cs[i];
    }
    if k > 1 {
      assert starts[k - 1] == starts[k - 2] + step;
    }
  }

  /**
   * Concatenating the first `min(step, |chunk|)` characters of every window
   * gives back the text: no character is lost and none is repeated.
   */
  lemma ReassembleChunks(text: string, chunkSize: int, chunkOverlap: int)
    requires chunkSize > chunkOverlap >= 0
    ensures Reassemble(Chunks(text, chunkSize, chunkOverlap), chunkSize - chunkOverlap) == text
  {
    var cs := Chunks(text, chunkSize, chunkOverlap);
    var step := chunkSize - chunkOverlap;
    var c := |cs|;
    var starts: seq<nat> := seq(c, i requires 0 <= i => i * step);
    forall i | 0 < i < c ensures starts[i] == starts[i - 1] + step {
      MulSucc(i - 1, step);
    }
    forall i | 0 <= i < c ensures WindowAt(text, cs[i], starts[i], chunkSize) {
      ChunkWindow(text, chunkSize, chunkOverlap, i);
    }
    assert SlidingWindows(text, cs, starts, chunkSize, step);
    ReassembleWindows(text, cs, starts, chunkSize, step);
    if c > 0 {
      MulSucc(c - 1, step);
      assert starts[c - 1] + step >= |text|;
    }
  }

  /** The last window runs to the end of the text. */
  lemma LastChunkIsSuffix(text: string, chunkSize: int, chunkOverlap: int)
    requires chunkSize > chunkOverlap >= 0
    requires text != []
    ensures var cs := Chunks(text, chunkSize, chunkOverlap);
      |cs| > 0 && cs[|cs| - 1] == text[(|cs| - 1) * (chunkSize - chunkOverlap)..]
  {
    var step := chunkSize - chunkOverlap;
    var c := |Chunks(text, chunkSize, chunkOverlap)|;
    var start := (c - 1) * step;
    MulSucc(c - 1, step);
    assert start + step >= |text|;
    ChunkWindow(text, chunkSize, chunkOverlap, c - 1);
    assert Min(start + chunkSize, |text|) == |text|;
  }

  /**
   * The call in the upload handlers on 1200 characters: windows at offsets 0,
   * 400 and 800, of lengths 500, 500 and 400.
   */
  lemma UploadSplitOf1200(text: string)
    requires |text| == 1200
    ensures var cs := Chunks(text, UploadChunkSize, UploadChunkOverlap);
      && |cs| == 3
      && cs[0] == text[0..500] && cs[1] == text[400..900] && cs[2] == text[800..1200]
      && |cs[0]| == 500 && |cs[1]| == 500 && |cs[2]| == 400
  {
    var cs := Chunks(text, UploadChunkSize, UploadChunkOverlap);
    assert |cs| == 3;
    assert cs[1] == Chunk(text, 500, 100, 1);
    assert cs[2] == Chunk(text, 500, 100, 2);
  }

  /**
   * On 450 characters the same call emits a second window, `text[400..450]`,
   * that lies wholly inside the first: the count is ceil(n / step), not
   * ceil((n - overlap) / step).
   */
  lemma UploadSplitOf450(text: string)
    requires |text| == 450
    ensures var cs := Chunks(text, UploadChunkSize, UploadChunkOverlap);
      && |cs| == 2 && cs[0] == text && cs[1] == text[400..]
  {
    var cs := Chunks(text, UploadChunkSize, UploadChunkOverlap);
    assert |cs| == 2;
    assert cs[0] == Chunk(text, 500, 100, 0);
    assert cs[1] == Chunk(text, 500, 100, 1);
  }
}
