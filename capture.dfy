/** The input-stream callback: an interleaved buffer of captured samples is scaled to the
    floating-point range, down-mixed to one mono sample per frame and pushed into the
    sample queue until the queue is full. */
module Capture {
  import opened Frames
  import opened SampleFormats
  import opened SampleQueues

  function Sum(xs: seq<real>): real {
    if xs == [] then 0.0 else xs[0] + Sum(xs[1..])
  }

  /** Frame `k` of `data` cut into frames of `channels` slots; the last one may be short. */
  function Chunk(data: seq<real>, channels: nat, k: nat): (c: seq<real>)
    requires channels >= 1 && k * channels < |data|
  {
    data[k * channels .. Min(k * channels + channels, |data|)]
  }

  /** Two channels: each frame becomes the average of its two samples. */
  function StereoMix(data: seq<real>): (r: seq<real>)
    requires |data| % 2 == 0
    ensures |r| == |data| / 2
    ensures forall k :: 0 <= k < |r| ==> r[k] == (data[2 * k] + data[2 * k + 1]) * 0.5
  {
    if data == [] then [] else [(data[0] + data[1]) * 0.5] + StereoMix(data[2..])
  }

  /** More channels: each frame becomes the sum of its samples divided by the channel count,
      the short last frame included. */
  function MultiMix(data: seq<real>, channels: nat): (r: seq<real>)
    requires channels >= 1
    ensures |r| == FrameCount(|data|, channels)
    decreases |data|
  {
    if data == [] then
      FrameCountIs(0, channels, 0);
      []
    else if |data| <= channels then
      FrameCountIs(|data|, channels, 1);
      [Sum(data) / channels as real]
    else
      FrameCountStep(|data|, channels);
      [Sum(data[..channels]) / channels as real] + MultiMix(data[channels..], channels)
  }

  /** Every output sample of the multi-channel down-mix is the mean-by-channel-count of its
      frame. */
  lemma {:induction false} MultiMixChunk(data: seq<real>, channels: nat, k: nat)
    requires channels >= 1 && k * channels < |data|
    ensures k < |MultiMix(data, channels)|
    ensures MultiMix(data, channels)[k] == Sum(Chunk(data, channels, k)) / channels as real
    decreases k
  {
    var c := channels;
    var r := MultiMix(data, c);
    if k == 0 {
      FrameCountIs(0, c, 0);
      if |data| <= c {
        assert Chunk(data, c, 0) == data;
      } else {
        assert Chunk(data, c, 0) == data[..c];
      }
    } else {
      MulLe(1, k, c);
      assert |data| > c;
      var rest := data[c..];
      assert (k - 1) * c == k * c - c;
      MultiMixChunk(rest, c, k - 1);
      assert r == [Sum(data[..c]) / c as real] + MultiMix(rest, c);
      assert Chunk(rest, c, k - 1) == Chunk(data, c, k);
    }
  }

  /** The mono samples the callback derives from one buffer of floating-point samples. */
  function DownMix(data: seq<real>, channels: nat): (r: seq<real>)
    requires channels >= 1 && (channels == 2 ==> |data| % 2 == 0)
    ensures |r| == FrameCount(|data|, channels)
    ensures channels == 1 ==> r == data
    ensures channels == 2 ==> forall k :: 0 <= k < |r| ==> r[k] == (data[2 * k] + data[2 * k + 1]) * 0.5
  {
    if channels == 1 then
      FrameCountIs(|data|, 1, |data|);
      data
    else if channels == 2 then
      FrameCountIs(|data|, 2, |data| / 2);
      StereoMix(data)
    else
      MultiMix(data, channels)
  }

  /** Every frame that starts inside the buffer yields one captured sample; beyond two
      channels it is the sum of the frame over the channel count. */
  lemma DownMixFrame(data: seq<real>, channels: nat, k: nat)
    requires channels >= 1 && (channels == 2 ==> |data| % 2 == 0)
    requires k * channels < |data|
    ensures k < |DownMix(data, channels)|
    ensures channels > 2 ==> DownMix(data, channels)[k] == Sum(Chunk(data, channels, k)) / channels as real
  {
    FrameCountBelow(|data|, channels, k);
    if channels > 2 {
      MultiMixChunk(data, channels, k);
    }
  }

  lemma SumPair(a: real, b: real)
    ensures Sum([a, b]) == a + b
  {
    assert [a, b][1..] == [b];
    assert [b][1..] == [];
    assert Sum([b]) == b;
  }

  /** The two-channel rule is the general rule specialised: a pair is summed and halved. */
  lemma {:induction false} StereoIsMulti(data: seq<real>)
    requires |data| % 2 == 0
    ensures StereoMix(data) == MultiMix(data, 2)
    decreases |data|
  {
    if data != [] {
      assert data[..2] == [data[0], data[1]];
      SumPair(data[0], data[1]);
      if |data| == 2 {
        assert data == data[..2];
        assert data[2..] == [];
      } else {
        StereoIsMulti(data[2..]);
      }
    }
  }

  /** Four channels of 0.2, 0.4, 0.6 and 0.8 make one frame of 0.5. */
  lemma FourChannelFrame()
    ensures DownMix([0.2, 0.4, 0.6, 0.8], 4) == [0.5]
  {
    var d := [0.2, 0.4, 0.6, 0.8];
    assert d[1..] == [0.4, 0.6, 0.8];
    assert d[1..][1..] == [0.6, 0.8];
    assert d[1..][1..][1..] == [0.8];
    assert d[1..][1..][1..][1..] == [];
    assert Sum(d) == 2.0;
  }

  /** A short last frame is still divided by the full channel count: three channels over
      0.3, 0.6, 0.9, 0.3 make 0.6 and then 0.1, not 0.3. */
  lemma ShortLastFrame()
    ensures DownMix([0.3, 0.6, 0.9, 0.3], 3) == [0.6, 0.1]
  {
    var d := [0.3, 0.6, 0.9, 0.3];
    var head := d[..3];
    assert head == [0.3, 0.6, 0.9];
    assert head[1..] == [0.6, 0.9];
    assert head[1..][1..] == [0.9];
    assert head[1..][1..][1..] == [];
    assert Sum(head[1..][1..]) == 0.9;
    assert Sum(head[1..]) == 1.5;
    assert Sum(head) == 1.8;
    var tail := d[3..];
    assert tail == [0.3];
    assert Sum(tail) == 0.3 by { assert tail[1..] == []; }
    assert MultiMix(tail, 3) == [0.1];
  }

  predicate InUnitRange(xs: seq<real>) {
    forall i :: 0 <= i < |xs| ==> -1.0 <= xs[i] <= 1.0
  }

  lemma {:induction false} SumBound(xs: seq<real>)
    requires InUnitRange(xs)
    ensures -(|xs| as real) <= Sum(xs) <= |xs| as real
    decreases |xs|
  {
    if xs != [] {
      assert InUnitRange(xs[1..]) by {
        forall i | 0 <= i < |xs[1..]| ensures -1.0 <= xs[1..][i] <= 1.0 {
          assert xs[1..][i] == xs[i + 1];
        }
      }
      SumBound(xs[1..]);
    }
  }

  /** Samples in [-1, 1] down-mix to samples in [-1, 1], whatever the channel count. */
  lemma DownMixInRange(data: seq<real>, channels: nat)
    requires channels >= 1 && (channels == 2 ==> |data| % 2 == 0)
    requires InUnitRange(data)
    ensures InUnitRange(DownMix(data, channels))
  {
    if channels == 2 {
      var r := StereoMix(data);
      forall k | 0 <= k < |r| ensures -1.0 <= r[k] <= 1.0 {
        assert 2 * k + 1 < |data|;
      }
    } else if channels > 2 {
      var r := MultiMix(data, channels);
      forall k | 0 <= k < |r| ensures -1.0 <= r[k] <= 1.0 {
        MultiMixInRange(data, channels, k);
      }
    }
  }

  lemma MultiMixInRange(data: seq<real>, channels: nat, k: nat)
    requires channels >= 1 && InUnitRange(data)
    requires k < |MultiMix(data, channels)|
    ensures -1.0 <= MultiMix(data, channels)[k] <= 1.0
  {
    var n := |MultiMix(data, channels)|;
    FrameCountBelow(|data|, channels, k);
    MultiMixChunk(data, channels, k);
    var chunk := Chunk(data, channels, k);
    assert InUnitRange(chunk) by {
      forall i | 0 <= i < |chunk| ensures -1.0 <= chunk[i] <= 1.0 {
        assert chunk[i] == data[k * channels + i];
      }
    }
    SumBound(chunk);
    ChunkMean(Sum(chunk), |chunk|, channels);
  }

  lemma ChunkMean(s: real, m: nat, n: nat)
    requires 1 <= m <= n && -(m as real) <= s <= m as real
    ensures -1.0 <= s / n as real <= 1.0
  {
    assert -(n as real) <= s <= n as real;
  }

  /** Each captured sample converted to the floating-point range by `scale`. */
  function Scaled<T>(data: seq<T>, scale: T -> real): (r: seq<real>)
    ensures |r| == |data|
    ensures forall i :: 0 <= i < |data| ==> r[i] == scale(data[i])
  {
    if data == [] then [] else [scale(data[0])] + Scaled(data[1..], scale)
  }

  /** The `f32` callback takes its samples as they are. */
  function FromF32(x: real): real { x }

  /** `f32` captures pass through unscaled, so unit-range input down-mixes into [-1, 1]. */
  lemma F32CaptureInRange(data: seq<real>, channels: nat)
    requires channels >= 1 && (channels == 2 ==> |data| % 2 == 0)
    requires InUnitRange(data)
    ensures Scaled(data, FromF32) == data
    ensures InUnitRange(DownMix(Scaled(data, FromF32), channels))
  {
    assert Scaled(data, FromF32) == data;
    DownMixInRange(data, channels);
  }

  /** `u16` captures always down-mix into [-1, 1]. */
  lemma U16CaptureInRange(data: seq<U16>, channels: nat)
    requires channels >= 1 && (channels == 2 ==> |data| % 2 == 0)
    ensures InUnitRange(DownMix(Scaled(data, FromU16), channels))
  {
    DownMixInRange(Scaled(data, FromU16), channels);
  }

  /** `i16` captures without the one sample -32768 down-mix into [-1, 1]. */
  lemma I16CaptureInRange(data: seq<I16>, channels: nat)
    requires channels >= 1 && (channels == 2 ==> |data| % 2 == 0)
    requires forall i :: 0 <= i < |data| ==> data[i] != -32768
    ensures InUnitRange(DownMix(Scaled(data, FromI16), channels))
  {
    DownMixInRange(Scaled(data, FromI16), channels);
  }

  /** The push loop: samples go into the queue in order until the first push that fails,
      and the rest of the buffer is dropped. Returns how many were pushed. */
  method PushUntilFull(q: SampleQueue, samples: seq<real>) returns (pushed: nat)
    requires q.Valid()
    modifies q
    ensures q.Valid()
    ensures pushed == Min(|samples|, q.capacity - |old(q.items)|)
    ensures q.items == old(q.items) + samples[..pushed]
    ensures q.accepted == old(q.accepted) + samples[..pushed]
    ensures q.delivered == old(q.delivered)
  {
    pushed := 0;
    while pushed < |samples|
      invariant q.Valid()
      invariant pushed <= |samples| && |old(q.items)| + pushed <= q.capacity
      invariant q.items == old(q.items) + samples[..pushed]
      invariant q.accepted == old(q.accepted) + samples[..pushed]
      invariant q.delivered == old(q.delivered)
    {
      var ok := q.Push(samples[pushed]);
      if !ok {
        break;
      }
      assert samples[..pushed + 1] == samples[..pushed] + [samples[pushed]];
      pushed := pushed + 1;
    }
  }

  /** The whole input callback for one sample format, `scale` being its conversion
      (`FromF32`, `FromI16` or `FromU16`). Nothing happens once the program has stopped. */
  method InputCallback<T>(q: SampleQueue, running: bool, data: seq<T>, channels: nat,
                          scale: T -> real) returns (pushed: nat)
    requires q.Valid()
    requires channels >= 1 && (channels == 2 ==> |data| % 2 == 0)
    modifies q
    ensures q.Valid()
    ensures !running ==> pushed == 0 && q.items == old(q.items) && q.accepted == old(q.accepted)
    ensures running ==>
      var samples := DownMix(Scaled(data, scale), channels);
      && pushed == Min(|samples|, q.capacity - |old(q.items)|)
      && q.items == old(q.items) + samples[..pushed]
      && q.accepted == old(q.accepted) + samples[..pushed]
    ensures q.delivered == old(q.delivered)
  {
    if !running {
      return 0;
    }
    var samples := DownMix(Scaled(data, scale), channels);
    pushed := PushUntilFull(q, samples);
  }
}
