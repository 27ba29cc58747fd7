/** The stateful distortion processor: a drive gain, one of five waveshapers, a tone filter,
    a DC blocker and an output level, applied to the left and then the right sample of a
    stereo frame through ONE shared set of filter and bit-crusher state. */
module DistortionEngine {
  import opened Maths

  /** Exactly one waveshaper is active at a time. */
  datatype DistortionType = Soft | Hard | BitCrusher | Wavefolder | Overdrive

  /** Pole of the fixed DC-blocking filter. */
  const DcAlpha: real := 0.995

  predicate UnitRange(v: real) { 0.0 <= v <= 1.0 }

  // ---------------------------------------------------------------------------------------
  // Expression-only parts of the pipeline

  /** Drive gain: 1x with no drive up to 20x at full drive. */
  function DriveGain(drive: real): (g: real)
    ensures UnitRange(drive) ==> 1.0 <= g <= 20.0
    ensures drive == 0.0 ==> g == 1.0
    ensures drive == 1.0 ==> g == 20.0
  {
    1.0 + drive * 19.0
  }

  /** Soft clipping: tanh saturates strictly inside (-1, 1). */
  function SoftClip(m: Math, x: real): (r: real)
    ensures Lawful(m) ==> -1.0 < r < 1.0
  {
    m.tanh(x)
  }

  function HardThreshold(drive: real): (t: real)
    ensures UnitRange(drive) ==> 0.5 <= t <= 1.0
  {
    0.5 + drive * 0.5
  }

  /** Hard clipping at plus or minus the threshold. */
  function HardClip(drive: real, x: real): (r: real)
    requires UnitRange(drive)
    ensures var t := HardThreshold(drive);
      && -t <= r <= t
      && (x > t ==> r == t)
      && (x < -t ==> r == -t)
      && (-t <= x <= t ==> r == x)
  {
    var threshold := HardThreshold(drive);
    if x > threshold then threshold
    else if x < -threshold then -threshold
    else x
  }

  function FoldAmount(drive: real): (f: real)
    ensures UnitRange(drive) ==> 0.5 <= f <= 2.5
  {
    0.5 + drive * 2.0
  }

  /** Wavefolding: sin of the scaled input, scaled back; bounded by 1/foldAmount <= 2. */
  function Wavefold(m: Math, drive: real, x: real): (r: real)
    requires UnitRange(drive)
    ensures Lawful(m) ==> -2.0 <= r <= 2.0
  {
    var f := FoldAmount(drive);
    var folded := m.sin(x * f);
    assert Lawful(m) ==> -2.0 <= folded / f <= 2.0 by {
      if Lawful(m) { DivBound(folded, f); }
    }
    folded / f
  }

  lemma DivBound(a: real, f: real)
    requires -1.0 <= a <= 1.0 && 0.5 <= f
    ensures -2.0 <= a / f <= 2.0
  {
    var q := a / f;
    assert q * f == a;
    assert (q - 2.0) * f <= 0.0 && (q + 2.0) * f >= 0.0;
  }

  function PositiveKnee(drive: real): (p: real)
    ensures UnitRange(drive) ==> 0.3 <= p <= 0.7
  {
    0.3 + drive * 0.4
  }

  function NegativeKnee(drive: real): (n: real)
    ensures UnitRange(drive) ==> 0.2 <= n <= 0.5
  {
    0.2 + drive * 0.3
  }

  /** Asymmetric overdrive: identity between the knees, beyond them the excess is scaled by 0.3. */
  function OverdriveClip(drive: real, x: real): (r: real)
    requires UnitRange(drive)
    ensures var p, n := PositiveKnee(drive), NegativeKnee(drive);
      && (-n <= x <= p ==> r == x)
      && (x > p ==> p < r < x)
      && (x < -n ==> x < r < -n)
  {
    var positiveThreshold := PositiveKnee(drive);
    var negativeThreshold := NegativeKnee(drive);
    if x > positiveThreshold then
      positiveThreshold + (x - positiveThreshold) * 0.3
    else if x < -negativeThreshold then
      -negativeThreshold + (x + negativeThreshold) * 0.3
    else
      x
  }

  /** Number of quantisation levels for a bit depth: 2^(depth*16). */
  function Levels(m: Math, depth: real): real {
    m.pow2(depth * 16.0)
  }

  /** Quantisation of the held sample to the nearest multiple of 1/levels. */
  function Quantize(m: Math, depth: real, held: real): (r: real)
    requires Levels(m, depth) > 0.0
    ensures held == 0.0 ==> r == 0.0
    ensures -0.5 / Levels(m, depth) <= r - held <= 0.5 / Levels(m, depth)
  {
    var levels := Levels(m, depth);
    var k := Round(held * levels);
    RoundedQuotient(held, levels, k);
    (k as real) / levels
  }

  /** Dividing an integer within 1/2 of `h * l` by `l` lands within 1/(2l) of `h`. */
  lemma RoundedQuotient(h: real, l: real, k: int)
    requires l > 0.0
    requires -0.5 <= h * l - k as real <= 0.5
    ensures -0.5 / l <= (k as real) / l - h <= 0.5 / l
  {
    var d := k as real - h * l;
    assert (k as real) / l - h == d / l;
    DivideMonotone(-0.5, d, l);
    DivideMonotone(d, 0.5, l);
  }

  lemma DivideMonotone(a: real, b: real, l: real)
    requires l > 0.0 && a <= b
    ensures a / l <= b / l
  {
    assert b / l - a / l == (b - a) / l;
  }

  // ---------------------------------------------------------------------------------------
  // The engine's state as a value, and one function per stage of `tick`

  /** Every field of the engine. `dc0, dc1` is the DC-blocker array, `tf0, tf1` the tone-filter
      array, `counter` and `held` the bit-crusher counter and last sample. */
  datatype EngineState = EngineState(
    kind: DistortionType,
    drive: real, level: real, tone: real, sampleRate: real,
    dc0: real, dc1: real, tf0: real, tf1: real,
    counter: real, rate: real, depth: real, held: real)

  /** Every parameter in the range its setter clamps to, a positive sample rate, and the
      bit-crusher counter in [0, 1). */
  predicate Invariant(s: EngineState) {
    && UnitRange(s.drive) && UnitRange(s.level) && UnitRange(s.tone)
    && 0.01 <= s.rate <= 1.0 && 0.1 <= s.depth <= 1.0
    && s.sampleRate > 0.0
    && 0.0 <= s.counter < 1.0
  }

  /** The state built by `Distortion::new`. */
  function Initial(sampleRate: real): (s: EngineState)
    ensures sampleRate > 0.0 ==> Invariant(s)
    ensures s.dc0 == s.dc1 == s.tf0 == s.tf1 == s.counter == s.held == 0.0
  {
    EngineState(Soft, 0.5, 0.7, 0.5, sampleRate, 0.0, 0.0, 0.0, 0.0, 0.0, 0.1, 0.5, 0.0)
  }

  /** The state after `reset`: all filter and bit-crusher history zero, every parameter kept. */
  function ResetState(s: EngineState): (t: EngineState)
    ensures t.dc0 == t.dc1 == t.tf0 == t.tf1 == t.counter == t.held == 0.0
    ensures t.kind == s.kind && t.drive == s.drive && t.level == s.level && t.tone == s.tone
    ensures t.rate == s.rate && t.depth == s.depth && t.sampleRate == s.sampleRate
    ensures Invariant(s) ==> Invariant(t)
  {
    s.(dc0 := 0.0, dc1 := 0.0, tf0 := 0.0, tf1 := 0.0, counter := 0.0, held := 0.0)
  }

  /** The sample-and-hold part of `bit_crush`. */
  function CrushStep(s: EngineState, x: real): (t: EngineState)
    ensures t == s.(counter := t.counter, held := t.held)
    ensures s.counter + s.rate >= 1.0 ==> t.counter == s.counter + s.rate - 1.0 && t.held == x
    ensures s.counter + s.rate < 1.0 ==> t.counter == s.counter + s.rate && t.held == s.held
    ensures 0.0 <= s.counter < 1.0 && 0.0 < s.rate <= 1.0 ==> 0.0 <= t.counter < 1.0
  {
    var c := s.counter + s.rate;
    if c >= 1.0 then s.(counter := c - 1.0, held := x) else s.(counter := c)
  }

  /** `apply_distortion`: the output of the active shaper and the state it leaves. Only the
      bit crusher changes state. */
  function Distort(m: Math, s: EngineState, x: real): (r: (real, EngineState))
    requires Invariant(s) && Lawful(m)
    ensures Invariant(r.1)
    ensures s.kind != BitCrusher ==> r.1 == s
    ensures s.kind == Soft ==> -1.0 < r.0 < 1.0
    ensures s.kind == Hard ==> -HardThreshold(s.drive) <= r.0 <= HardThreshold(s.drive)
    ensures s.kind == Wavefolder ==> -2.0 <= r.0 <= 2.0
  {
    match s.kind
    case Soft => (SoftClip(m, x), s)
    case Hard => (HardClip(s.drive, x), s)
    case BitCrusher =>
      var t := CrushStep(s, x);
      (Quantize(m, t.depth, t.held), t)
    case Wavefolder => (Wavefold(m, s.drive, x), s)
    case Overdrive => (OverdriveClip(s.drive, x), s)
  }

  /** The tone filter coefficient rc / (rc + dt) for cutoff 100 Hz + tone * 2000 Hz. */
  function ToneAlpha(tone: real, sampleRate: real): (a: real)
    requires tone >= 0.0 && sampleRate > 0.0
    ensures 0.0 < a < 1.0
  {
    var cutoff := 100.0 + tone * 2000.0;
    var w := 2.0 * PI * cutoff;
    var rc := 1.0 / w;
    var dt := 1.0 / sampleRate;
    AlphaForm(w, sampleRate);
    rc / (rc + dt)
  }

  lemma AlphaForm(w: real, sr: real)
    requires w > 0.0 && sr > 0.0
    ensures 1.0 / w + 1.0 / sr > 0.0
    ensures (1.0 / w) / (1.0 / w + 1.0 / sr) == sr / (sr + w)
    ensures 0.0 < sr / (sr + w) < 1.0
  {
    var rc, dt := 1.0 / w, 1.0 / sr;
    assert rc * w == 1.0 && dt * sr == 1.0;
    var q := sr / (sr + w);
    assert q * (sr + w) == sr;
    assert (rc + dt) * (w * sr) == sr + w;
    assert rc * (w * sr) == sr;
    assert q * (rc + dt) * (w * sr) == rc * (w * sr);
  }

  /** The filtered part of `apply_tone_filter`: alpha * (tf0 + x - tf1). */
  function ToneFiltered(s: EngineState, x: real): real
    requires s.tone >= 0.0 && s.sampleRate > 0.0
  {
    ToneAlpha(s.tone, s.sampleRate) * (s.tf0 + x - s.tf1)
  }

  /** `apply_tone_filter`: a tone-weighted blend of the filtered and the dry sample;
      the history shifts to [x, old tf0]. */
  function ToneStep(s: EngineState, x: real): (r: (real, EngineState))
    requires s.tone >= 0.0 && s.sampleRate > 0.0
    ensures r.1 == s.(tf0 := x, tf1 := s.tf0)
    ensures s.tone == 0.0 ==> r.0 == x
    ensures s.tone == 1.0 ==> r.0 == ToneFiltered(s, x)
  {
    var output := ToneFiltered(s, x);
    (output * s.tone + x * (1.0 - s.tone), s.(tf1 := s.tf0, tf0 := x))
  }

  /** `apply_dc_blocker`: x - dc0 + 0.995 * dc1; the history becomes [x, output]. */
  function DcStep(s: EngineState, x: real): (r: (real, EngineState))
    ensures r.1 == s.(dc0 := x, dc1 := r.0)
    ensures x == s.dc0 ==> r.0 == DcAlpha * s.dc1
  {
    var output := x - s.dc0 + DcAlpha * s.dc1;
    (output, s.(dc0 := x, dc1 := output))
  }

  /** The input sample times the drive gain. */
  function Driven(s: EngineState, x: real): real {
    x * DriveGain(s.drive)
  }

  /** A left and a right sample together with the state they leave behind. */
  datatype Stage = Stage(left: real, right: real, state: EngineState)

  /** One stage applied to the left sample and then to the right one, threading one state. */
  function DistortPair(m: Math, s: EngineState, l: real, r: real): (o: Stage)
    requires Invariant(s) && Lawful(m)
    ensures Invariant(o.state)
  {
    var a := Distort(m, s, l);
    var b := Distort(m, a.1, r);
    Stage(a.0, b.0, b.1)
  }

  /** The tone filter on the left and then the right sample of a stage. */
  function ToneStage(d: Stage): (o: Stage)
    requires Invariant(d.state)
    ensures Invariant(o.state)
    ensures o.state == d.state.(tf0 := o.state.tf0, tf1 := o.state.tf1)
  {
    var a := ToneStep(d.state, d.left);
    var b := ToneStep(a.1, d.right);
    Stage(a.0, b.0, b.1)
  }

  /** The DC blocker on the left and then the right sample of a stage. */
  function DcStage(t: Stage): (o: Stage)
    requires Invariant(t.state)
    ensures Invariant(o.state)
    ensures o.state == t.state.(dc0 := o.state.dc0, dc1 := o.state.dc1)
  {
    var a := DcStep(t.state, t.left);
    var b := DcStep(a.1, t.right);
    Stage(a.0, b.0, b.1)
  }

  /** The output level applied to both samples of a stage. */
  function Leveled(b: Stage, level: real): (o: Stage)
    ensures o.state == b.state
  {
    Stage(b.left * level, b.right * level, b.state)
  }

  lemma LeveledOutputs(l: real, r: real, st: EngineState, level: real)
    ensures Leveled(Stage(l, r, st), level) == Stage(l * level, r * level, st)
  {
  }

  lemma DrivenBy(s: EngineState, x: real, g: real)
    requires g == DriveGain(s.drive)
    ensures x * g == Driven(s, x)
  {
  }

  /** The whole of `tick`: drive gain, then every stage on the left sample and then on the
      right one, then the output level. */
  function TickSpec(m: Math, s: EngineState, leftIn: real, rightIn: real): (o: Stage)
    requires Invariant(s) && Lawful(m)
    ensures Invariant(o.state)
  {
    Leveled(DcStage(ToneStage(DistortPair(m, s, Driven(s, leftIn), Driven(s, rightIn)))), s.level)
  }

  /** `TickSpec` from the results of its three stages. */
  lemma TickSpecSteps(m: Math, s: EngineState, leftIn: real, rightIn: real, g: real,
                      d: Stage, t: Stage, o: Stage)
    requires Invariant(s) && Lawful(m) && g == DriveGain(s.drive)
    requires d == DistortPair(m, s, leftIn * g, rightIn * g)
    requires t == ToneStage(d)
    requires o == Leveled(DcStage(t), s.level)
    ensures o == TickSpec(m, s, leftIn, rightIn)
  {
    DrivenBy(s, leftIn, g);
    DrivenBy(s, rightIn, g);
  }

  // ---------------------------------------------------------------------------------------
  // The processor object

  class Distortion {
    var distortionType: DistortionType
    var drive: real
    var level: real
    var tone: real
    const sampleRate: real
    /** Two-element filter histories, updated in place. */
    const dcBlocker: array<real>
    const toneFilter: array<real>
    var bitCrusherCounter: real
    var bitCrusherRate: real
    var bitCrusherDepth: real
    var lastSample: real
    /** The library calls `tanh`, `sin` and `powf` the engine uses. */
    const math: Math

    /** The engine's fields as an `EngineState` value. */
    function State(): EngineState
      reads this, dcBlocker, toneFilter
      requires dcBlocker.Length == 2 && toneFilter.Length == 2
    {
      EngineState(distortionType, drive, level, tone, sampleRate,
        dcBlocker[0], dcBlocker[1], toneFilter[0], toneFilter[1],
        bitCrusherCounter, bitCrusherRate, bitCrusherDepth, lastSample)
    }

    ghost predicate Valid()
      reads this, dcBlocker, toneFilter
    {
      && dcBlocker.Length == 2 && toneFilter.Length == 2 && dcBlocker != toneFilter
      && Lawful(math)
      && Invariant(State())
    }

    /** `Distortion::new`. */
    constructor (sampleRate: nat, math: Math)
      requires sampleRate > 0 && Lawful(math)
      ensures Valid() && fresh(dcBlocker) && fresh(toneFilter)
      ensures this.math == math
      ensures State() == Initial(sampleRate as real)
    {
      distortionType := Soft;
      drive := 0.5;
      level := 0.7;
      tone := 0.5;
      this.sampleRate := sampleRate as real;
      dcBlocker := new real[2] [0.0, 0.0];
      toneFilter := new real[2] [0.0, 0.0];
      bitCrusherCounter := 0.0;
      bitCrusherRate := 0.1;
      bitCrusherDepth := 0.5;
      lastSample := 0.0;
      this.math := math;
    }

    /** `tick`: one stereo frame through the whole pipeline. */
    method Tick(leftIn: real, rightIn: real) returns (leftOut: real, rightOut: real)
      requires Valid()
      modifies this, dcBlocker, toneFilter
      ensures Valid()
      ensures Stage(leftOut, rightOut, State()) == TickSpec(math, old(State()), leftIn, rightIn)
    {
      ghost var s0 := State();
      var driveGain := DriveGain(drive);
      var leftDriven := leftIn * driveGain;
      var rightDriven := rightIn * driveGain;

      var leftDistorted, rightDistorted := DistortBoth(leftDriven, rightDriven);
      ghost var d := Stage(leftDistorted, rightDistorted, State());
      var leftToned, rightToned := ToneBoth(leftDistorted, rightDistorted);
      ghost var t := Stage(leftToned, rightToned, State());
      assert level == s0.level;
      leftOut, rightOut := DcBlockAndLevel(leftToned, rightToned);
      TickSpecSteps(math, s0, leftIn, rightIn, driveGain, d, t, Stage(leftOut, rightOut, State()));
    }

    /** The distortion stage of `tick`: the left sample and then the right one. */
    method DistortBoth(left: real, right: real) returns (leftOut: real, rightOut: real)
      requires Valid()
      modifies this
      ensures Valid()
      ensures Stage(leftOut, rightOut, State()) == DistortPair(math, old(State()), left, right)
      ensures level == old(level)
    {
      leftOut := ApplyDistortion(left);
      rightOut := ApplyDistortion(right);
    }

    /** The tone stage of `tick`. */
    method ToneBoth(left: real, right: real) returns (leftOut: real, rightOut: real)
      requires Valid()
      modifies toneFilter
      ensures Valid()
      ensures Stage(leftOut, rightOut, State()) == ToneStage(Stage(left, right, old(State())))
    {
      leftOut := ApplyToneFilter(left);
      rightOut := ApplyToneFilter(right);
    }

    /** The DC-blocking stage of `tick` and the output level. */
    method DcBlockAndLevel(left: real, right: real) returns (leftOut: real, rightOut: real)
      requires Valid()
      modifies dcBlocker
      ensures Valid()
      ensures Stage(leftOut, rightOut, State()) == Leveled(DcStage(Stage(left, right, old(State()))), level)
    {
      var leftDcBlocked := ApplyDcBlocker(left);
      var rightDcBlocked := ApplyDcBlocker(right);
      leftOut := leftDcBlocked * level;
      rightOut := rightDcBlocked * level;
      LeveledOutputs(leftDcBlocked, rightDcBlocked, State(), level);
    }

    method SetDistortionType(t: DistortionType)
      requires Valid()
      modifies this
      ensures Valid()
      ensures State() == old(State()).(kind := t)
    {
      distortionType := t;
    }

    method SetDrive(v: real)
      requires Valid()
      modifies this
      ensures Valid()
      ensures State() == old(State()).(drive := Clamp(v, 0.0, 1.0))
    {
      drive := Clamp(v, 0.0, 1.0);
    }

    method SetLevel(v: real)
      requires Valid()
      modifies this
      ensures Valid()
      ensures State() == old(State()).(level := Clamp(v, 0.0, 1.0))
    {
      level := Clamp(v, 0.0, 1.0);
    }

    method SetTone(v: real)
      requires Valid()
      modifies this
      ensures Valid()
      ensures State() == old(State()).(tone := Clamp(v, 0.0, 1.0))
    {
      tone := Clamp(v, 0.0, 1.0);
    }

    method SetBitCrusherParams(rate: real, depth: real)
      requires Valid()
      modifies this
      ensures Valid()
      ensures State() == old(State()).(rate := Clamp(rate, 0.01, 1.0), depth := Clamp(depth, 0.1, 1.0))
    {
      bitCrusherRate := Clamp(rate, 0.01, 1.0);
      bitCrusherDepth := Clamp(depth, 0.1, 1.0);
    }

    /** `apply_distortion`. */
    method ApplyDistortion(x: real) returns (r: real)
      requires Valid()
      modifies this
      ensures Valid()
      ensures (r, State()) == Distort(math, old(State()), x)
      ensures level == old(level) && drive == old(drive)
    {
      match distortionType
      case Soft => r := SoftClip(math, x);
      case Hard => r := HardClip(drive, x);
      case BitCrusher => r := BitCrush(x);
      case Wavefolder => r := Wavefold(math, drive, x);
      case Overdrive => r := OverdriveClip(drive, x);
    }

    /** `bit_crush`: advance the counter, latch the input on reaching 1, quantise the held sample. */
    method BitCrush(x: real) returns (r: real)
      requires Valid()
      modifies this
      ensures Valid()
      ensures State() == CrushStep(old(State()), x)
      ensures level == old(level) && drive == old(drive) && distortionType == old(distortionType)
      ensures r == Quantize(math, bitCrusherDepth, lastSample)
    {
      bitCrusherCounter := bitCrusherCounter + bitCrusherRate;
      if bitCrusherCounter >= 1.0 {
        bitCrusherCounter := bitCrusherCounter - 1.0;
        lastSample := x;
      }
      r := Quantize(math, bitCrusherDepth, lastSample);
    }

    /** `apply_tone_filter`. */
    method ApplyToneFilter(x: real) returns (r: real)
      requires Valid()
      modifies toneFilter
      ensures Valid()
      ensures (r, State()) == ToneStep(old(State()), x)
    {
      var cutoff := 100.0 + tone * 2000.0;
      var rc := 1.0 / (2.0 * PI * cutoff);
      var dt := 1.0 / sampleRate;
      var alpha := rc / (rc + dt);
      assert alpha == ToneAlpha(tone, sampleRate);
      ghost var s := State();

      var output := alpha * (toneFilter[0] + x - toneFilter[1]);
      assert output == ToneFiltered(s, x);
      toneFilter[1] := toneFilter[0];
      toneFilter[0] := x;

      var filtered := output;
      var unfiltered := x;
      r := filtered * tone + unfiltered * (1.0 - tone);
      assert State() == s.(tf0 := x, tf1 := s.tf0);
      assert r == ToneStep(s, x).0;
    }

    /** `apply_dc_blocker`. */
    method ApplyDcBlocker(x: real) returns (r: real)
      requires Valid()
      modifies dcBlocker
      ensures Valid()
      ensures (r, State()) == DcStep(old(State()), x)
    {
      var alpha := DcAlpha;
      var output := x - dcBlocker[0] + alpha * dcBlocker[1];
      dcBlocker[0] := x;
      dcBlocker[1] := output;
      r := output;
    }

    /** `reset`: zero the filter histories and the bit-crusher counter and held sample. */
    method Reset()
      requires Valid()
      modifies this, dcBlocker, toneFilter
      ensures Valid()
      ensures State() == ResetState(old(State()))
    {
      dcBlocker[0], dcBlocker[1] := 0.0, 0.0;
      toneFilter[0], toneFilter[1] := 0.0, 0.0;
      bitCrusherCounter := 0.0;
      lastSample := 0.0;
    }
  }
}
