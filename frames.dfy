/** Interleaved audio buffers are cut into frames of `channels` consecutive slots, the last
    frame possibly short (Rust's `chunks` / `chunks_mut`). This module counts the frames and
    locates a slot inside its frame. */
module Frames {

  function Min(a: int, b: int): int { if a <= b then a else b }

  /** The number of frames `chunks(channels)` yields over `len` slots. */
  function FrameCount(len: nat, channels: nat): nat
    requires channels >= 1
  {
    (len + channels - 1) / channels
  }

  lemma MulLe(x: int, y: int, n: int)
    requires x <= y && n >= 0
    ensures x * n <= y * n
  {
    assert y * n - x * n == (y - x) * n;
  }

  /** Euclidean division is determined by the bracket its quotient falls in. */
  lemma DivUnique(a: int, n: int, q: int)
    requires n > 0 && q * n <= a < q * n + n
    ensures a / n == q
    ensures a % n == a - q * n
  {
    var d := a / n;
    assert a == d * n + a % n && 0 <= a % n < n;
    if d < q {
      MulLe(d + 1, q, n);
      assert false;
    }
    if d > q {
      MulLe(q + 1, d, n);
      assert false;
    }
  }

  /** Slot `j` of frame `k` (counting from zero) lies at offset `j - k * channels` of it. */
  lemma SlotOfFrame(j: int, k: int, channels: int)
    requires channels > 0 && k * channels <= j < k * channels + channels
    ensures j / channels == k && j % channels == j - k * channels
  {
    DivUnique(j, channels, k);
  }

  /** `frames` frames cover `len` slots, the last one possibly short, exactly when `frames`
      is the frame count. */
  lemma FrameCountIs(len: nat, channels: nat, frames: nat)
    requires channels >= 1
    requires frames * channels >= len
    requires frames == 0 || (frames - 1) * channels < len
    ensures FrameCount(len, channels) == frames
  {
    if frames == 0 {
      DivUnique(len + channels - 1, channels, 0);
    } else {
      assert (frames - 1) * channels == frames * channels - channels;
      DivUnique(len + channels - 1, channels, frames);
    }
  }

  /** Removing one whole frame from the front removes one from the count. */
  lemma FrameCountStep(len: nat, channels: nat)
    requires channels >= 1 && len >= channels
    ensures FrameCount(len, channels) == 1 + FrameCount(len - channels, channels)
  {
    var k := FrameCount(len - channels, channels);
    var a := len - channels + channels - 1;
    assert k * channels <= a < k * channels + channels;
    assert (k + 1) * channels == k * channels + channels;
    DivUnique(len + channels - 1, channels, k + 1);
  }

  /** Frame `k` exists exactly when it starts inside the buffer. */
  lemma FrameCountBelow(len: nat, channels: nat, k: nat)
    requires channels >= 1
    ensures k < FrameCount(len, channels) <==> k * channels < len
  {
    var q := FrameCount(len, channels);
    var a := len + channels - 1;
    assert a == q * channels + a % channels;
    if k < q {
      MulLe(k + 1, q, channels);
    } else {
      MulLe(q, k, channels);
    }
  }

  /** Walking a buffer frame by frame: the frame that starts at `start`, the slot just past
      `frames` whole frames, ends at `end`; its slots belong to frame `frames`, and it has
      the full `channels` slots or, when it is cut short, as many as the buffer leaves. */
  lemma NextFrame(len: nat, channels: nat, frames: nat, start: nat, end: nat)
    requires channels >= 1 && start == Min(frames * channels, len) && start < len
    requires end == Min(start + channels, len)
    ensures start == frames * channels
    ensures end == Min((frames + 1) * channels, len)
    ensures end - start == channels || end - start == len % channels
    ensures channels == 2 && len % 2 == 0 ==> end - start == 2
    ensures forall j :: start <= j < end ==> j / channels == frames && j % channels == j - start
  {
    assert (frames + 1) * channels == frames * channels + channels;
    forall j | start <= j < end
      ensures j / channels == frames && j % channels == j - start
    {
      SlotOfFrame(j, frames, channels);
    }
    if end < start + channels {
      SlotOfFrame(len, frames, channels);
    }
  }

  /** Moving one frame further moves the frame index up by one and keeps the offset. */
  lemma DivStepUp(j: int, channels: int, k: int)
    requires channels >= 1 && j >= channels && k == (j - channels) / channels
    ensures j / channels == k + 1 && j % channels == (j - channels) % channels
  {
    assert k * channels <= j - channels < k * channels + channels;
    assert (k + 1) * channels == k * channels + channels;
    DivUnique(j, channels, k + 1);
    DivUnique(j - channels, channels, k);
  }

  /** Euclidean division by a frame width. */
  lemma DivMod(j: nat, channels: nat) returns (k: nat, i: nat)
    requires channels >= 1
    ensures k == j / channels && i == j % channels
    ensures j == k * channels + i && i < channels
  {
    k, i := j / channels, j % channels;
  }
}
