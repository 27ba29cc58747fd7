/** The output-stream callbacks: for every frame of the device's interleaved output buffer,
    one sample is popped from the sample queue (silence when it is empty) and written to
    every slot of the frame, either directly (passthrough mode) or after a stereo reverb
    (reverb mode). The output format is a parameter `encode`: the identity for `f32`,
    `ToI16` or `ToU16` for the integer formats. */
module Playback {
  import opened Options
  import opened Frames
  import opened SampleQueues

  /** The input each of the first `n` frames plays: the queue's samples in order while there
      are any, then silence. */
  function Padded(items: seq<real>, n: nat): (r: seq<real>)
    ensures |r| == n
    ensures forall k :: 0 <= k < n ==> r[k] == if k < |items| then items[k] else 0.0
    decreases n
  {
    if n == 0 then [] else Padded(items, n - 1) + [if n - 1 < |items| then items[n - 1] else 0.0]
  }

  /** What playback hands out is what was queued, followed by silence. */
  lemma PaddedIsQueuePrefix(items: seq<real>, n: nat)
    ensures n <= |items| ==> Padded(items, n) == items[..n]
    ensures n > |items| ==> Padded(items, n)[..|items|] == items
    ensures forall k :: |items| <= k < n ==> Padded(items, n)[k] == 0.0
  {
  }

  /** Writes `v` into slots `start` to `end - 1`, the frame being cut off by the buffer's
      end, as the three channel-count branches of the passthrough callback do. */
  method FillPassthroughFrame<T>(data: array<T>, start: nat, end: nat, channels: nat, v: T)
    requires channels >= 1 && start < end <= data.Length
    requires end - start == Min(channels, data.Length - start)
    requires channels <= 2 ==> end - start == channels
    modifies data
    ensures forall j :: 0 <= j < data.Length ==> data[j] == if start <= j < end then v else old(data[j])
  {
    if channels == 1 {
      data[start] := v;
    } else if channels == 2 {
      data[start] := v;
      data[start + 1] := v;
    } else {
      var i := start;
      while i < end
        invariant start <= i <= end
        invariant forall j :: 0 <= j < data.Length ==> data[j] == if start <= j < i then v else old(data[j])
      {
        data[i] := v;
        i := i + 1;
      }
    }
  }

  /** `consumer.pop().unwrap_or(0.0)`, for a queue that has handed out the first `n`
      samples of `items0`: the next of them, or silence once they are all gone. */
  method PopOrSilence(q: SampleQueue, ghost items0: seq<real>, ghost delivered0: seq<real>,
                      ghost n: nat) returns (sample: real, ghost n': nat)
    requires q.Valid() && n <= |items0|
    requires q.items == items0[n..] && q.delivered == delivered0 + items0[..n]
    modifies q
    ensures q.Valid() && q.accepted == old(q.accepted)
    ensures n' == if n < |items0| then n + 1 else n
    ensures sample == if n < |items0| then items0[n] else 0.0
    ensures q.items == items0[n'..] && q.delivered == delivered0 + items0[..n']
  {
    var popped := q.Pop();
    sample := popped.UnwrapOr(0.0);
    if n < |items0| {
      assert items0[..n + 1] == items0[..n] + [items0[n]];
      n' := n + 1;
    } else {
      n' := n;
    }
  }

  /** Slots `start` to `end - 1` of `after` hold `frame`; the others are as in `before`. */
  lemma Spliced<T>(before: seq<T>, after: seq<T>, start: nat, end: nat, frame: seq<T>)
    requires start + |frame| == end <= |before| == |after|
    requires forall j :: 0 <= j < |after| ==> after[j] == if start <= j < end then frame[j - start] else before[j]
    ensures after[..end] == before[..start] + frame
  {
  }

  /** Every slot of a passthrough frame of `width` slots plays the same value. */
  function PassFrame<T>(v: T, width: nat): seq<T>
  {
    seq(width, _ => v)
  }

  /** The passthrough buffer of `len` slots playing `played`, frame after frame; the last
      frame is cut short by the buffer's end. */
  function PassLayout<T>(played: seq<real>, channels: nat, len: nat, encode: real -> T): seq<T>
    requires channels >= 1
    decreases len
  {
    if len == 0 || played == [] then []
    else
      var w := Min(channels, len);
      PassFrame(encode(played[0]), w) + PassLayout(played[1..], channels, len - w, encode)
  }

  /** Playing one more sample appends one more frame, here cut to `end - start` slots. */
  lemma {:induction false} PassLayoutSnoc<T>(played: seq<real>, channels: nat, start: nat, end: nat,
                                             x: real, encode: real -> T)
    requires channels >= 1 && start == |played| * channels && start < end <= start + channels
    ensures PassLayout(played + [x], channels, end, encode)
         == PassLayout(played, channels, start, encode) + PassFrame(encode(x), end - start)
    decreases |played|
  {
    if played == [] {
      PassLayoutOne(x, channels, end, encode);
    } else {
      MulLe(1, |played|, channels);
      assert start - channels == (|played| - 1) * channels;
      assert (played + [x])[1..] == played[1..] + [x];
      PassLayoutSnoc(played[1..], channels, start - channels, end - channels, x, encode);
    }
  }

  /** A single sample fills a buffer no wider than one frame. */
  lemma PassLayoutOne<T>(x: real, channels: nat, len: nat, encode: real -> T)
    requires channels >= 1 && 0 < len <= channels
    ensures PassLayout([x], channels, len, encode) == PassFrame(encode(x), len)
  {
    assert PassLayout([x], channels, len, encode) == PassFrame(encode(x), len) + PassLayout([], channels, 0, encode);
  }

  /** A layout with one sample for each frame fills the whole buffer. */
  lemma {:induction false} PassLayoutLength<T>(played: seq<real>, channels: nat, len: nat, encode: real -> T)
    requires channels >= 1 && |played| == FrameCount(len, channels)
    ensures |PassLayout(played, channels, len, encode)| == len
    decreases len
  {
    FrameCountBelow(len, channels, 0);
    if len > channels {
      FrameCountStep(len, channels);
      PassLayoutLength(played[1..], channels, len - channels, encode);
    } else if len > 0 {
      assert PassLayout(played[1..], channels, 0, encode) == [];
    }
  }

  /** Slot `j` of the passthrough buffer plays the sample of frame `j / channels`, whatever
      the channel count. */
  lemma {:induction false} PassLayoutSlot<T>(played: seq<real>, channels: nat, len: nat,
                                             encode: real -> T, j: nat)
    requires channels >= 1 && |played| == FrameCount(len, channels) && j < len
    ensures |PassLayout(played, channels, len, encode)| == len && j / channels < |played| &&
            PassLayout(played, channels, len, encode)[j] == encode(played[j / channels])
    decreases len
  {
    PassLayoutLength(played, channels, len, encode);
    FrameCountBelow(len, channels, 0);
    if j < channels {
      DivUnique(j, channels, 0);
    } else {
      FrameCountStep(len, channels);
      var rest := PassLayout(played[1..], channels, len - channels, encode);
      assert PassLayout(played, channels, len, encode) == PassFrame(encode(played[0]), channels) + rest;
      PassLayoutSlot(played[1..], channels, len - channels, encode, j - channels);
      var k := (j - channels) / channels;
      DivStepUp(j, channels, k);
    }
  }

  /** The passthrough callback: the buffer becomes the passthrough layout of the samples the
      queue held, padded with silence, one per frame; exactly one sample is popped per frame,
      oldest first. Nothing happens once the program has stopped. */
  method PassthroughCallback<T>(q: SampleQueue, running: bool, data: array<T>, channels: nat,
                                encode: real -> T) returns (frames: nat)
    requires q.Valid()
    requires channels >= 1 && (channels == 2 ==> data.Length % 2 == 0)
    modifies q, data
    ensures q.Valid() && q.accepted == old(q.accepted)
    ensures !running ==> frames == 0 && q.items == old(q.items) && q.delivered == old(q.delivered)
    ensures !running ==> data[..] == old(data[..])
    ensures running ==> frames == FrameCount(data.Length, channels)
    ensures running ==> q.items == old(q.items)[Min(frames, |old(q.items)|)..]
    ensures running ==> q.delivered == old(q.delivered) + old(q.items)[..Min(frames, |old(q.items)|)]
    ensures running ==> data[..] == PassLayout(Padded(old(q.items), frames), channels, data.Length, encode)
  {
    frames := 0;
    if !running {
      return;
    }
    ghost var items0 := q.items;
    ghost var delivered0 := q.delivered;
    ghost var taken := 0;
    ghost var played: seq<real> := [];
    var start := 0;
    while start < data.Length
      invariant 0 <= start <= data.Length && start == Min(frames * channels, data.Length)
      invariant frames == 0 || (frames - 1) * channels < data.Length
      invariant Consumed(q, items0, delivered0, old(q.accepted), taken, frames)
      invariant played == Padded(items0, frames)
      invariant data[..start] == PassLayout(played, channels, start, encode)
    {
      start, taken, played := PlayPassthroughFrame(q, data, channels, encode, start, frames,
                                                   items0, delivered0, taken, played);
      frames := frames + 1;
    }
    FrameCountIs(data.Length, channels, frames);
    assert data[..] == data[..start];
  }

  /** One iteration of the passthrough callback: frame `frames`, which starts at slot `start`,
      plays the next sample (or silence) and the buffer's layout grows by it. */
  method PlayPassthroughFrame<T>(q: SampleQueue, data: array<T>, channels: nat, encode: real -> T,
                                 start: nat, frames: nat, ghost items0: seq<real>,
                                 ghost delivered0: seq<real>, ghost taken: nat, ghost played: seq<real>)
    returns (end: nat, ghost taken': nat, ghost played': seq<real>)
    requires channels >= 1 && (channels == 2 ==> data.Length % 2 == 0)
    requires start < data.Length && start == Min(frames * channels, data.Length)
    requires Consumed(q, items0, delivered0, q.accepted, taken, frames)
    requires played == Padded(items0, frames)
    requires data[..start] == PassLayout(played, channels, start, encode)
    modifies q, data
    ensures end == Min((frames + 1) * channels, data.Length) && frames * channels < data.Length
    ensures Consumed(q, items0, delivered0, old(q.accepted), taken', frames + 1)
    ensures played' == Padded(items0, frames + 1)
    ensures data[..end] == PassLayout(played', channels, end, encode)
  {
    var sample;
    sample, taken' := PopOrSilence(q, items0, delivered0, taken);
    end := Min(start + channels, data.Length);
    NextFrame(data.Length, channels, frames, start, end);
    ghost var before := data[..];
    FillPassthroughFrame(data, start, end, channels, encode(sample));
    Spliced(before, data[..], start, end, PassFrame(encode(sample), end - start));
    PassLayoutSnoc(played, channels, start, end, sample, encode);
    played' := played + [sample];
  }

  /** One stereo output of the reverb. */
  datatype Stereo = Stereo(left: real, right: real)

  /** What slot `i` of a frame of `channels` slots plays for the reverb output `o`: the mean
      of both sides on a mono device, otherwise left in even slots and right in odd ones. */
  function Slot(o: Stereo, channels: nat, i: int): real {
    if channels == 1 then (o.left + o.right) * 0.5
    else if i % 2 == 0 then o.left
    else o.right
  }

  /** Every frame of two or more slots starts with the left output, then the right one. */
  lemma StereoPairFirst(o: Stereo, channels: nat)
    requires channels >= 2
    ensures Slot(o, channels, 0) == o.left && Slot(o, channels, 1) == o.right
  {
  }

  /** Writes one reverb output into slots `start` to `end - 1`, as the three channel-count
      branches of the reverb callback do. */
  method FillReverbFrame<T>(data: array<T>, start: nat, end: nat, channels: nat, o: Stereo,
                            encode: real -> T)
    requires channels >= 1 && start < end <= data.Length
    requires end - start == Min(channels, data.Length - start)
    requires channels <= 2 ==> end - start == channels
    requires channels > 2 ==> end - start >= 2
    modifies data
    ensures forall j :: 0 <= j < data.Length ==>
      data[j] == if start <= j < end then encode(Slot(o, channels, j - start)) else old(data[j])
  {
    if channels == 1 {
      data[start] := encode((o.left + o.right) * 0.5);
    } else if channels == 2 {
      data[start] := encode(o.left);
      data[start + 1] := encode(o.right);
    } else {
      data[start] := encode(o.left);
      data[start + 1] := encode(o.right);
      var i := 2;
      while i < end - start
        invariant 2 <= i <= end - start
        invariant forall j :: 0 <= j < data.Length ==>
          data[j] == if start <= j < start + i then encode(Slot(o, channels, j - start)) else old(data[j])
      {
        data[start + i] := encode(if i % 2 == 0 then o.left else o.right);
        i := i + 1;
      }
    }
  }

  /** The reverb settings the control console adjusts. */
  datatype ReverbSettings = ReverbSettings(wet: real, dry: real, roomSize: real, dampening: real, width: real)

  /** The settings reverb mode configures before the streams start. */
  const StartSettings: ReverbSettings := ReverbSettings(0.1, 0.9, 0.5, 0.5, 0.5)

  /** The reverb unit. Its processing is not part of this model: `process` stands for one
      `tick`, mapping the settings, the hidden state and an input pair to an output pair and
      the next hidden state. */
  class Freeverb<S> {
    var settings: ReverbSettings
    var state: S
    const process: (ReverbSettings, S, real, real) -> (Stereo, S)

    constructor (defaults: ReverbSettings, initial: S, process: (ReverbSettings, S, real, real) -> (Stereo, S))
      ensures settings == defaults && state == initial && this.process == process
    {
      settings := defaults;
      state := initial;
      this.process := process;
    }

    method SetWet(v: real)
      modifies this
      ensures settings == old(settings).(wet := v) && state == old(state)
    {
      settings := settings.(wet := v);
    }

    method SetDry(v: real)
      modifies this
      ensures settings == old(settings).(dry := v) && state == old(state)
    {
      settings := settings.(dry := v);
    }

    method SetRoomSize(v: real)
      modifies this
      ensures settings == old(settings).(roomSize := v) && state == old(state)
    {
      settings := settings.(roomSize := v);
    }

    method SetDampening(v: real)
      modifies this
      ensures settings == old(settings).(dampening := v) && state == old(state)
    {
      settings := settings.(dampening := v);
    }

    method SetWidth(v: real)
      modifies this
      ensures settings == old(settings).(width := v) && state == old(state)
    {
      settings := settings.(width := v);
    }

    /** Reverb mode's initial configuration: mostly dry, a medium room. */
    method Configure()
      modifies this
      ensures settings == StartSettings && state == old(state)
    {
      SetWet(0.1);
      SetDry(0.9);
      SetRoomSize(0.5);
      SetDampening(0.5);
      SetWidth(0.5);
    }

    method Tick(left: real, right: real) returns (o: Stereo)
      modifies this
      ensures (o, state) == process(old(settings), old(state), left, right)
      ensures settings == old(settings)
    {
      var next := process(settings, state, left, right);
      o := next.0;
      state := next.1;
    }
  }

  /** The reverb fed each input on both sides, frame after frame: the outputs and the final
      hidden state. */
  function ReverbRun<S>(process: (ReverbSettings, S, real, real) -> (Stereo, S),
                        settings: ReverbSettings, s: S, inputs: seq<real>): (r: (seq<Stereo>, S))
    ensures |r.0| == |inputs|
    decreases |inputs|
  {
    if inputs == [] then ([], s)
    else
      var before := ReverbRun(process, settings, s, inputs[..|inputs| - 1]);
      var x := inputs[|inputs| - 1];
      var next := process(settings, before.1, x, x);
      (before.0 + [next.0], next.1)
  }

  /** The reverb is causal: the first `k` outputs depend on the first `k` inputs only. */
  lemma {:induction false} ReverbRunCausal<S>(process: (ReverbSettings, S, real, real) -> (Stereo, S),
                                               settings: ReverbSettings, s: S, inputs: seq<real>, k: nat)
    requires k <= |inputs|
    ensures ReverbRun(process, settings, s, inputs).0[..k] == ReverbRun(process, settings, s, inputs[..k]).0
    decreases |inputs|
  {
    if k < |inputs| {
      var front := inputs[..|inputs| - 1];
      ReverbRunCausal(process, settings, s, front, k);
      assert front[..k] == inputs[..k];
      var r := ReverbRun(process, settings, s, inputs).0;
      assert r[..k] == ReverbRun(process, settings, s, front).0[..k];
    } else {
      assert inputs[..k] == inputs;
    }
  }

  /** The frame of `width` slots playing the reverb output `o`, laid out by `Slot`. */
  function ReverbFrame<T>(o: Stereo, channels: nat, width: nat, encode: real -> T): seq<T>
  {
    seq(width, i => encode(Slot(o, channels, i)))
  }

  /** The reverb-mode buffer of `len` slots playing the outputs `outs`, frame after frame;
      the last frame is cut short by the buffer's end. */
  function ReverbLayout<T>(outs: seq<Stereo>, channels: nat, len: nat, encode: real -> T): seq<T>
    requires channels >= 1
    decreases len
  {
    if len == 0 || outs == [] then []
    else
      var w := Min(channels, len);
      ReverbFrame(outs[0], channels, w, encode) + ReverbLayout(outs[1..], channels, len - w, encode)
  }

  /** One more reverb output appends one more frame, here cut to `end - start` slots. */
  lemma {:induction false} ReverbLayoutSnoc<T>(outs: seq<Stereo>, channels: nat, start: nat, end: nat,
                                               o: Stereo, encode: real -> T)
    requires channels >= 1 && start == |outs| * channels && start < end <= start + channels
    ensures ReverbLayout(outs + [o], channels, end, encode)
         == ReverbLayout(outs, channels, start, encode) + ReverbFrame(o, channels, end - start, encode)
    decreases |outs|
  {
    if outs == [] {
      ReverbLayoutOne(o, channels, end, encode);
    } else {
      MulLe(1, |outs|, channels);
      assert start - channels == (|outs| - 1) * channels;
      assert (outs + [o])[1..] == outs[1..] + [o];
      ReverbLayoutSnoc(outs[1..], channels, start - channels, end - channels, o, encode);
    }
  }

  /** A single output fills a buffer no wider than one frame. */
  lemma ReverbLayoutOne<T>(o: Stereo, channels: nat, len: nat, encode: real -> T)
    requires channels >= 1 && 0 < len <= channels
    ensures ReverbLayout([o], channels, len, encode) == ReverbFrame(o, channels, len, encode)
  {
    assert ReverbLayout([o], channels, len, encode)
        == ReverbFrame(o, channels, len, encode) + ReverbLayout([], channels, 0, encode);
  }

  lemma {:induction false} ReverbLayoutLength<T>(outs: seq<Stereo>, channels: nat, len: nat, encode: real -> T)
    requires channels >= 1 && |outs| == FrameCount(len, channels)
    ensures |ReverbLayout(outs, channels, len, encode)| == len
    decreases len
  {
    FrameCountBelow(len, channels, 0);
    if len > channels {
      FrameCountStep(len, channels);
      ReverbLayoutLength(outs[1..], channels, len - channels, encode);
    } else if len > 0 {
      assert ReverbLayout(outs[1..], channels, 0, encode) == [];
    }
  }

  /** Offset `i` of frame `k`, which starts at slot `start`, plays what `Slot` prescribes
      for that frame's output. */
  lemma {:induction false} ReverbLayoutAt<T>(outs: seq<Stereo>, channels: nat, len: nat,
                                             encode: real -> T, k: nat, start: nat, i: nat)
    requires channels >= 1 && k < |outs| && start == k * channels
    requires i < channels && start + i < len
    ensures start + i < |ReverbLayout(outs, channels, len, encode)|
    ensures ReverbLayout(outs, channels, len, encode)[start + i] == encode(Slot(outs[k], channels, i))
    decreases k
  {
    var w := Min(channels, len);
    var rest := ReverbLayout(outs[1..], channels, len - w, encode);
    assert ReverbLayout(outs, channels, len, encode) == ReverbFrame(outs[0], channels, w, encode) + rest;
    if k > 0 {
      MulLe(1, k, channels);
      assert start - channels == (k - 1) * channels;
      ReverbLayoutAt(outs[1..], channels, len - channels, encode, k - 1, start - channels, i);
      assert outs[1..][k - 1] == outs[k];
    }
  }

  /** Slot `j` of the reverb-mode buffer plays, for the output of frame `j / channels`, what
      `Slot` prescribes at offset `j % channels`: the mono mix on one channel, left in the
      even slots and right in the odd ones otherwise. */
  lemma ReverbLayoutSlot<T>(outs: seq<Stereo>, channels: nat, len: nat, encode: real -> T, j: nat)
    requires channels >= 1 && |outs| == FrameCount(len, channels) && j < len
    ensures |ReverbLayout(outs, channels, len, encode)| == len && j / channels < |outs| &&
            ReverbLayout(outs, channels, len, encode)[j] == encode(Slot(outs[j / channels], channels, j % channels))
  {
    ReverbLayoutLength(outs, channels, len, encode);
    var k, i := DivMod(j, channels);
    FrameCountBelow(len, channels, k);
    ReverbLayoutAt(outs, channels, len, encode, k, j - i, i);
  }

  /** The reverb callback: the reverb runs once per frame on the samples the queue held,
      padded with silence, and the buffer becomes the reverb layout of its outputs; exactly
      one sample is popped per frame, oldest first. A short last frame needs at least two
      slots, since the left and right outputs are always written. Nothing happens once the
      program has stopped. */
  method ReverbCallback<S, T>(q: SampleQueue, fx: Freeverb<S>, running: bool, data: array<T>,
                              channels: nat, encode: real -> T) returns (frames: nat)
    requires q.Valid()
    requires channels >= 1 && (channels == 2 ==> data.Length % 2 == 0)
    requires channels > 2 ==> data.Length % channels != 1
    modifies q, fx, data
    ensures q.Valid() && q.accepted == old(q.accepted) && fx.settings == old(fx.settings)
    ensures !running ==> frames == 0 && q.items == old(q.items) && q.delivered == old(q.delivered)
    ensures !running ==> fx.state == old(fx.state) && data[..] == old(data[..])
    ensures running ==> frames == FrameCount(data.Length, channels)
    ensures running ==> q.items == old(q.items)[Min(frames, |old(q.items)|)..]
    ensures running ==> q.delivered == old(q.delivered) + old(q.items)[..Min(frames, |old(q.items)|)]
    ensures running ==>
      var run := ReverbRun(fx.process, old(fx.settings), old(fx.state), Padded(old(q.items), frames));
      fx.state == run.1 && data[..] == ReverbLayout(run.0, channels, data.Length, encode)
  {
    frames := 0;
    if !running {
      return;
    }
    ghost var items0 := q.items;
    ghost var delivered0 := q.delivered;
    ghost var state0 := fx.state;
    ghost var taken := 0;
    ghost var played: seq<real> := [];
    ghost var outs: seq<Stereo> := [];
    var start := 0;
    while start < data.Length
      invariant 0 <= start <= data.Length && start == Min(frames * channels, data.Length)
      invariant frames == 0 || (frames - 1) * channels < data.Length
      invariant Consumed(q, items0, delivered0, old(q.accepted), taken, frames)
      invariant fx.settings == old(fx.settings) && played == Padded(items0, frames)
      invariant (outs, fx.state) == ReverbRun(fx.process, fx.settings, state0, played)
      invariant data[..start] == ReverbLayout(outs, channels, start, encode)
    {
      start, taken, played, outs := PlayReverbFrame(q, fx, data, channels, encode, start, frames,
                                                    items0, delivered0, state0, taken, played, outs);
      frames := frames + 1;
    }
    FrameCountIs(data.Length, channels, frames);
    assert data[..] == data[..start];
  }

  /** One iteration of the reverb callback: frame `frames`, which starts at slot `start`,
      is played and the buffer's layout grows by it. */
  method PlayReverbFrame<S, T>(q: SampleQueue, fx: Freeverb<S>, data: array<T>, channels: nat,
                               encode: real -> T, start: nat, frames: nat,
                               ghost items0: seq<real>, ghost delivered0: seq<real>, ghost state0: S,
                               ghost taken: nat, ghost played: seq<real>, ghost outs: seq<Stereo>)
    returns (end: nat, ghost taken': nat, ghost played': seq<real>, ghost outs': seq<Stereo>)
    requires channels >= 1 && (channels == 2 ==> data.Length % 2 == 0)
    requires channels > 2 ==> data.Length % channels != 1
    requires start < data.Length && start == Min(frames * channels, data.Length)
    requires Consumed(q, items0, delivered0, q.accepted, taken, frames)
    requires played == Padded(items0, frames)
    requires (outs, fx.state) == ReverbRun(fx.process, fx.settings, state0, played)
    requires data[..start] == ReverbLayout(outs, channels, start, encode)
    modifies q, fx, data
    ensures end == Min((frames + 1) * channels, data.Length) && frames * channels < data.Length
    ensures Consumed(q, items0, delivered0, old(q.accepted), taken', frames + 1)
    ensures fx.settings == old(fx.settings) && played' == Padded(items0, frames + 1)
    ensures (outs', fx.state) == ReverbRun(fx.process, fx.settings, state0, played')
    ensures data[..end] == ReverbLayout(outs', channels, end, encode)
  {
    var o;
    o, taken', played', outs' := NextReverbOutput(q, fx, items0, delivered0, state0, taken, frames, played, outs);
    end := Min(start + channels, data.Length);
    NextFrame(data.Length, channels, frames, start, end);
    ghost var before := data[..];
    FillReverbFrame(data, start, end, channels, o, encode);
    Spliced(before, data[..], start, end, ReverbFrame(o, channels, end - start, encode));
    ReverbLayoutSnoc(outs, channels, start, end, o, encode);
    assert outs + [o] == outs';
  }

  /** The queue has handed out the first `taken` of the samples `items0` it held, one per
      frame for `frames` frames. */
  ghost predicate Consumed(q: SampleQueue, items0: seq<real>, delivered0: seq<real>,
                           accepted0: seq<real>, taken: nat, frames: nat)
    reads q
  {
    && taken == Min(frames, |items0|)
    && q.Valid() && q.accepted == accepted0
    && q.items == items0[taken..] && q.delivered == delivered0 + items0[..taken]
  }

  /** One frame's worth of reverb: pop the next sample (or silence) and tick the reverb on
      it, extending the run by one output. */
  method NextReverbOutput<S>(q: SampleQueue, fx: Freeverb<S>, ghost items0: seq<real>,
                             ghost delivered0: seq<real>, ghost state0: S, ghost taken: nat,
                             frames: nat, ghost played: seq<real>, ghost outs: seq<Stereo>)
    returns (o: Stereo, ghost taken': nat, ghost played': seq<real>, ghost outs': seq<Stereo>)
    requires Consumed(q, items0, delivered0, q.accepted, taken, frames)
    requires played == Padded(items0, frames)
    requires (outs, fx.state) == ReverbRun(fx.process, fx.settings, state0, played)
    modifies q, fx
    ensures Consumed(q, items0, delivered0, old(q.accepted), taken', frames + 1)
    ensures fx.settings == old(fx.settings) && played' == Padded(items0, frames + 1)
    ensures (outs', fx.state) == ReverbRun(fx.process, fx.settings, state0, played')
    ensures |outs'| == frames + 1 && outs'[..frames] == outs && outs'[frames] == o
  {
    var sample;
    sample, taken' := PopOrSilence(q, items0, delivered0, taken);
    o := fx.Tick(sample, sample);
    ReverbRunSnoc(fx.process, fx.settings, state0, played, sample);
    played' := played + [sample];
    outs' := outs + [o];
    assert outs'[..frames] == outs;
  }

  /** One more input extends the reverb's run by one tick. */
  lemma ReverbRunSnoc<S>(process: (ReverbSettings, S, real, real) -> (Stereo, S),
                         settings: ReverbSettings, s: S, inputs: seq<real>, x: real)
    ensures
      var before := ReverbRun(process, settings, s, inputs);
      var next := process(settings, before.1, x, x);
      ReverbRun(process, settings, s, inputs + [x]) == (before.0 + [next.0], next.1)
  {
    assert (inputs + [x])[..|inputs|] == inputs;
  }
}
