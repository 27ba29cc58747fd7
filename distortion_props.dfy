/** Properties of the distortion engine's stages and of whole frames, stated over the value
    functions that `Distortion`'s methods are proved against. */
module DistortionProperties {
  import opened Maths
  import opened DistortionEngine

  // ---------------------------------------------------------------------------------------
  // The piecewise shapers

  /** Clipping a clipped sample changes nothing. */
  lemma HardClipIdempotent(drive: real, x: real)
    requires UnitRange(drive)
    ensures HardClip(drive, HardClip(drive, x)) == HardClip(drive, x)
  {
  }

  /** The hard clipper keeps the order of its inputs and never makes a sample louder. */
  lemma HardClipMonotone(drive: real, x: real, y: real)
    requires UnitRange(drive) && x <= y
    ensures HardClip(drive, x) <= HardClip(drive, y)
    ensures Abs(HardClip(drive, x)) <= Abs(x)
  {
  }

  /** The overdrive curve keeps the order of its inputs. */
  lemma OverdriveMonotone(drive: real, x: real, y: real)
    requires UnitRange(drive) && x <= y
    ensures OverdriveClip(drive, x) <= OverdriveClip(drive, y)
  {
  }

  /** The overdrive curve is continuous, in fact 1-Lipschitz: its two knees join the linear
      middle without a jump. */
  lemma OverdriveContinuous(drive: real, x: real, y: real)
    requires UnitRange(drive)
    ensures Abs(OverdriveClip(drive, x) - OverdriveClip(drive, y)) <= Abs(x - y)
  {
  }

  // ---------------------------------------------------------------------------------------
  // The bit-crusher counter and latch

  lemma FloorIs(x: real, k: int)
    requires k as real <= x < k as real + 1.0
    ensures x.Floor == k
  {
  }

  /** A value in [0, 1) that differs from `x` by an integer is the fractional part of `x`. */
  lemma FracIs(x: real, r: real, k: int)
    requires 0.0 <= r < 1.0 && x == r + k as real
    ensures Frac(x) == r
  {
    FloorIs(x, k);
  }

  /** One step advances the counter to the fractional part of counter + rate. */
  lemma CrushStepCounter(s: EngineState, x: real)
    requires 0.0 <= s.counter < 1.0 && 0.0 < s.rate <= 1.0
    ensures CrushStep(s, x).counter == Frac(s.counter + s.rate)
  {
    var c := s.counter + s.rate;
    FracIs(c, CrushStep(s, x).counter, if c >= 1.0 then 1 else 0);
  }

  /** The bit crusher applied to successive samples, as successive `bit_crush` calls do. */
  function CrushRun(s: EngineState, xs: seq<real>): (t: EngineState)
    ensures t == s.(counter := t.counter, held := t.held)
    decreases |xs|
  {
    if xs == [] then s else CrushRun(CrushStep(s, xs[0]), xs[1..])
  }

  /** How many of those steps latch a new sample. */
  function Latches(s: EngineState, xs: seq<real>): nat
    decreases |xs|
  {
    if xs == [] then 0
    else (if s.counter + s.rate >= 1.0 then 1 else 0) + Latches(CrushStep(s, xs[0]), xs[1..])
  }

  /** n * r as a repeated sum, the way the counter accumulates it. */
  function Times(n: nat, r: real): real {
    if n == 0 then 0.0 else Times(n - 1, r) + r
  }

  lemma {:induction false} TimesIsProduct(n: nat, r: real)
    ensures Times(n, r) == n as real * r
  {
    if n > 0 {
      TimesIsProduct(n - 1, r);
      assert n as real * r == (n - 1) as real * r + r;
    }
  }

  /** Every step adds the rate and every latch takes 1 away; the counter stays in [0, 1). */
  lemma {:induction false} CrushRunLatches(s: EngineState, xs: seq<real>)
    requires 0.0 <= s.counter < 1.0 && 0.0 < s.rate <= 1.0
    ensures CrushRun(s, xs).counter == s.counter + Times(|xs|, s.rate) - Latches(s, xs) as real
    ensures 0.0 <= CrushRun(s, xs).counter < 1.0
    decreases |xs|
  {
    if xs != [] {
      CrushRunLatches(CrushStep(s, xs[0]), xs[1..]);
    }
  }

  /** After n samples the counter is the fractional part of counter + n * rate. */
  lemma CrushRunCounter(s: EngineState, xs: seq<real>)
    requires 0.0 <= s.counter < 1.0 && 0.0 < s.rate <= 1.0
    ensures CrushRun(s, xs).counter == Frac(s.counter + Times(|xs|, s.rate))
  {
    CrushRunLatches(s, xs);
    FracIs(s.counter + Times(|xs|, s.rate), CrushRun(s, xs).counter, Latches(s, xs));
  }

  /** The held sample is always the initial one or one of the inputs: the crusher never
      invents a sample. */
  lemma {:induction false} CrushRunHeld(s: EngineState, xs: seq<real>)
    ensures CrushRun(s, xs).held == s.held || CrushRun(s, xs).held in xs
    decreases |xs|
  {
    if xs != [] {
      var t := CrushStep(s, xs[0]);
      CrushRunHeld(t, xs[1..]);
    }
  }

  lemma CrushRunPair(s: EngineState, a: real, b: real)
    ensures CrushRun(s, [a, b]) == CrushStep(CrushStep(s, a), b)
  {
    var t := CrushStep(s, a);
    assert CrushRun(s, [a, b]) == CrushRun(t, [b]);
    assert CrushRun(t, [b]) == CrushRun(CrushStep(t, b), []);
  }

  /** Two crusher steps advance the counter to the fractional part of counter + 2 * rate. */
  lemma CrushTwiceCounter(s: EngineState, a: real, b: real)
    requires 0.0 <= s.counter < 1.0 && 0.0 < s.rate <= 1.0
    ensures CrushStep(CrushStep(s, a), b).counter == Frac(s.counter + 2.0 * s.rate)
  {
    var t := CrushStep(s, a);
    var u := CrushStep(t, b);
    var j := (if s.counter + s.rate >= 1.0 then 1 else 0) + (if t.counter + t.rate >= 1.0 then 1 else 0);
    FracIs(s.counter + 2.0 * s.rate, u.counter, j);
  }

  /** In BitCrusher mode one frame advances the shared counter twice, over the driven left
      sample and then the driven right one; the tone and DC stages leave the crusher alone. */
  lemma TickCrushesTwice(m: Math, s: EngineState, leftIn: real, rightIn: real)
    requires Invariant(s) && Lawful(m) && s.kind == BitCrusher
    ensures var t := TickSpec(m, s, leftIn, rightIn).state;
      var c := CrushStep(CrushStep(s, Driven(s, leftIn)), Driven(s, rightIn));
      t.counter == c.counter && t.held == c.held
  {
    var d := DistortPair(m, s, Driven(s, leftIn), Driven(s, rightIn));
    var o := DcStage(ToneStage(d));
    assert o.state.counter == d.state.counter && o.state.held == d.state.held;
  }

  /** The counter after one BitCrusher frame. */
  lemma TickCounter(m: Math, s: EngineState, leftIn: real, rightIn: real)
    requires Invariant(s) && Lawful(m) && s.kind == BitCrusher
    ensures TickSpec(m, s, leftIn, rightIn).state.counter == Frac(s.counter + 2.0 * s.rate)
  {
    TickCrushesTwice(m, s, leftIn, rightIn);
    CrushTwiceCounter(s, Driven(s, leftIn), Driven(s, rightIn));
  }

  /** Because the crusher state is shared, the right output of a frame can be the LEFT input:
      when the left sample's step latches and the right one's does not, the right channel
      holds the quantised left sample. */
  lemma RightHoldsLeft(m: Math, s: EngineState, a: real, b: real)
    requires Invariant(s) && Lawful(m) && s.kind == BitCrusher
    requires s.counter + s.rate >= 1.0 && s.counter + 2.0 * s.rate < 2.0
    ensures DistortPair(m, s, a, b).right == Quantize(m, s.depth, a)
  {
  }

  // ---------------------------------------------------------------------------------------
  // The tone filter and the DC blocker

  /** The tone coefficient in closed form: fs / (fs + 2 pi fc) for the cutoff fc. */
  lemma ToneAlphaClosedForm(tone: real, sampleRate: real)
    requires tone >= 0.0 && sampleRate > 0.0
    ensures ToneAlpha(tone, sampleRate)
         == sampleRate / (sampleRate + 2.0 * PI * (100.0 + tone * 2000.0))
  {
    AlphaForm(2.0 * PI * (100.0 + tone * 2000.0), sampleRate);
  }

  /** At 44100 Hz and mid tone (cutoff 1100 Hz) the coefficient is about 0.8645. */
  lemma MidToneAlpha()
    ensures 0.86 < ToneAlpha(0.5, 44100.0) < 0.87
  {
    ToneAlphaClosedForm(0.5, 44100.0);
    var w := 2.0 * PI * 1100.0;
    var a := 44100.0 / (44100.0 + w);
    assert a * (44100.0 + w) == 44100.0;
  }

  /** With a constant input already in its history the tone stage passes alpha * x through its
      filtered path, so at tone 1 a constant is scaled by alpha rather than removed. */
  lemma ToneConstantGain(s: EngineState, x: real)
    requires s.tone >= 0.0 && s.sampleRate > 0.0 && s.tf0 == x && s.tf1 == x
    ensures ToneStep(s, x).0 == x * (ToneAlpha(s.tone, s.sampleRate) * s.tone + 1.0 - s.tone)
  {
  }

  /** The DC blocker fed the same sample n times. */
  function DcRun(s: EngineState, x: real, n: nat): EngineState {
    if n == 0 then s else DcStep(DcRun(s, x, n - 1), x).1
  }

  /** A constant input is blocked: once the history holds it, every further step multiplies
      the output by 0.995, so the output decays geometrically towards zero. */
  lemma {:induction false} DcDecays(s: EngineState, x: real, n: nat)
    requires s.dc0 == x
    ensures DcRun(s, x, n).dc0 == x
    ensures DcRun(s, x, n).dc1 == Pow(DcAlpha, n) * s.dc1
  {
    if n > 0 {
      DcDecays(s, x, n - 1);
      var p := Pow(DcAlpha, n - 1);
      assert DcAlpha * (p * s.dc1) == (DcAlpha * p) * s.dc1;
    }
  }

  // ---------------------------------------------------------------------------------------
  // Whole frames

  /** No filter history and no held sample. */
  predicate Quiet(s: EngineState) {
    s.dc0 == 0.0 && s.dc1 == 0.0 && s.tf0 == 0.0 && s.tf1 == 0.0 && s.held == 0.0
  }

  /** Silence into a quiet engine gives silence out and leaves it quiet, in every mode. */
  lemma SilenceStaysSilent(m: Math, s: EngineState)
    requires Invariant(s) && Lawful(m) && Quiet(s)
    ensures var o := TickSpec(m, s, 0.0, 0.0);
      o.left == 0.0 && o.right == 0.0 && Quiet(o.state)
  {
    var d := DistortPair(m, s, Driven(s, 0.0), Driven(s, 0.0));
    assert Driven(s, 0.0) == 0.0;
    assert d.left == 0.0 && d.right == 0.0 && Quiet(d.state);
    var t := ToneStage(d);
    assert t.left == 0.0 && t.right == 0.0 && Quiet(t.state);
    var b := DcStage(t);
    assert b.left == 0.0 && b.right == 0.0 && Quiet(b.state);
  }

  /** A fresh 44100 Hz engine switched to Hard with full drive. */
  function HardAtFullDrive(): (s: EngineState)
    ensures Invariant(s)
  {
    Initial(44100.0).(kind := Hard, drive := 1.0)
  }

  /** The first frame of (2, 2) through `HardAtFullDrive`: both samples clip to 1, and the
      shared tone and DC state then give left 0.35 (1 + a) and right 0.7 (0.9975 a + 0.4975)
      for the tone coefficient a. Both are at most 1; the right one is above 0.7. */
  lemma HardClipFrame(m: Math)
    requires Lawful(m)
    ensures var a := ToneAlpha(0.5, 44100.0);
      var o := TickSpec(m, HardAtFullDrive(), 2.0, 2.0);
      && o.left == 0.35 * (1.0 + a) && o.right == 0.7 * (0.9975 * a + 0.4975)
      && o.left <= 1.0 && o.right <= 1.0 && o.right > 0.7
  {
    var s := HardAtFullDrive();
    var a := ToneAlpha(0.5, 44100.0);
    MidToneAlpha();
    assert Driven(s, 2.0) == 40.0;
    var d := DistortPair(m, s, 40.0, 40.0);
    assert d == Stage(1.0, 1.0, s);
    var t := ToneStage(d);
    assert t.left == 0.5 * (1.0 + a) && t.right == a + 0.5;
    assert t.state == s.(tf0 := 1.0, tf1 := 1.0);
    var b := DcStage(t);
    assert b.left == 0.5 * (1.0 + a);
    assert b.right == 0.9975 * a + 0.4975;
  }

  /** A fresh 44100 Hz engine set to Soft with full drive. */
  function SoftAtFullDrive(): (s: EngineState)
    ensures Invariant(s)
  {
    Initial(44100.0).(kind := Soft, drive := 1.0)
  }

  /** The tone stage in closed form, `a` being the coefficient of the state's tone: the left
      sample is filtered against the history, the right one against the left one and the
      older history sample. */
  lemma ToneStageForm(s: EngineState, l: real, r: real, a: real, y1: real, y2: real)
    requires Invariant(s) && a == ToneAlpha(s.tone, s.sampleRate)
    requires y1 == a * (s.tf0 + l - s.tf1) * s.tone + l * (1.0 - s.tone)
    requires y2 == a * (l + r - s.tf0) * s.tone + r * (1.0 - s.tone)
    ensures ToneStage(Stage(l, r, s)) == Stage(y1, y2, s.(tf0 := r, tf1 := l))
  {
    ToneStepForm(s, l, a, s.tf0, s.tf1, s.tone, y1);
    var s' := s.(tf0 := l, tf1 := s.tf0);
    ToneStepForm(s', r, a, l, s.tf0, s.tone, y2);
    assert s'.(tf0 := r, tf1 := l) == s.(tf0 := r, tf1 := l);
  }

  /** One tone step in closed form: the output `y` and the shifted history. */
  lemma ToneStepForm(s: EngineState, x: real, a: real, tf0: real, tf1: real, tone: real, y: real)
    requires s.tone >= 0.0 && s.sampleRate > 0.0 && a == ToneAlpha(s.tone, s.sampleRate)
    requires s.tf0 == tf0 && s.tf1 == tf1 && s.tone == tone
    requires y == a * (tf0 + x - tf1) * tone + x * (1.0 - tone)
    ensures ToneStep(s, x) == (y, s.(tf0 := x, tf1 := tf0))
  {
    assert ToneStep(s, x).0 == y;
    assert ToneStep(s, x).1 == s.(tf0 := x, tf1 := tf0);
  }

  /** The DC stage in closed form: the right sample is blocked against the left input and
      the left output. */
  lemma DcStageForm(s: EngineState, l: real, r: real, y: real, z: real)
    requires Invariant(s)
    requires y == l - s.dc0 + DcAlpha * s.dc1
    requires z == r - l + DcAlpha * y
    ensures DcStage(Stage(l, r, s)) == Stage(y, z, s.(dc0 := r, dc1 := z))
  {
  }

  /** `TickSpec` from the results of its stages, the level applied to the DC stage's
      output. */
  lemma TickByStages(m: Math, s: EngineState, l: real, r: real, d: Stage, t: Stage, b: Stage)
    requires Invariant(s) && Lawful(m)
    requires d == DistortPair(m, s, Driven(s, l), Driven(s, r))
    requires t == ToneStage(d) && b == DcStage(t)
    ensures TickSpec(m, s, l, r) == Stage(b.left * s.level, b.right * s.level, b.state)
  {
    LeveledOutputs(b.left, b.right, b.state, s.level);
  }

  /** At full drive in Soft mode both samples are multiplied by 20 and go through tanh. */
  lemma SoftFullDriveShaping(m: Math, s: EngineState, l: real, r: real)
    requires Invariant(s) && Lawful(m) && s.kind == Soft && s.drive == 1.0
    ensures DistortPair(m, s, Driven(s, l), Driven(s, r)) == Stage(m.tanh(l * 20.0), m.tanh(r * 20.0), s)
  {
    assert Driven(s, l) == l * 20.0 && Driven(s, r) == r * 20.0;
    var a := Distort(m, s, l * 20.0);
    assert a == (m.tanh(l * 20.0), s);
    assert Distort(m, a.1, r * 20.0) == (m.tanh(r * 20.0), s);
  }

  /** The three stages of a Soft full-drive frame (x, x), u being tanh(20 x): `r1`, `r2`
      are the tone stage's outputs, `y1`, `z1` the DC stage's. */
  lemma SoftFrameStages(m: Math, s: EngineState, x: real, a: real, u: real,
                        r1: real, r2: real, y1: real, z1: real)
    requires Lawful(m) && Invariant(s) && s.kind == Soft && s.drive == 1.0
    requires a == ToneAlpha(s.tone, s.sampleRate) && u == m.tanh(x * 20.0)
    requires r1 == a * (s.tf0 + u - s.tf1) * s.tone + u * (1.0 - s.tone)
    requires r2 == a * (u + u - s.tf0) * s.tone + u * (1.0 - s.tone)
    requires y1 == r1 - s.dc0 + DcAlpha * s.dc1
    requires z1 == r2 - r1 + DcAlpha * y1
    ensures DistortPair(m, s, Driven(s, x), Driven(s, x)) == Stage(u, u, s)
    ensures ToneStage(Stage(u, u, s)) == Stage(r1, r2, s.(tf0 := u, tf1 := u))
    ensures DcStage(Stage(r1, r2, s.(tf0 := u, tf1 := u)))
         == Stage(y1, z1, s.(tf0 := u, tf1 := u, dc0 := r2, dc1 := z1))
  {
    SoftFullDriveShaping(m, s, x, x);
    ToneStageForm(s, u, u, a, r1, r2);
    DcStageForm(s.(tf0 := u, tf1 := u), r1, r2, y1, z1);
  }

  /** A whole Soft full-drive frame (x, x) from any history: the levelled DC outputs, and
      the history it leaves. */
  lemma SoftFrame(m: Math, s: EngineState, x: real, a: real, u: real,
                  r1: real, r2: real, y1: real, z1: real)
    requires Lawful(m) && Invariant(s) && s.kind == Soft && s.drive == 1.0
    requires a == ToneAlpha(s.tone, s.sampleRate) && u == m.tanh(x * 20.0)
    requires r1 == a * (s.tf0 + u - s.tf1) * s.tone + u * (1.0 - s.tone)
    requires r2 == a * (u + u - s.tf0) * s.tone + u * (1.0 - s.tone)
    requires y1 == r1 - s.dc0 + DcAlpha * s.dc1
    requires z1 == r2 - r1 + DcAlpha * y1
    ensures TickSpec(m, s, x, x)
         == Stage(y1 * s.level, z1 * s.level, s.(tf0 := u, tf1 := u, dc0 := r2, dc1 := z1))
  {
    SoftFrameStages(m, s, x, a, u, r1, r2, y1, z1);
    TickByStages(m, s, x, x, Stage(u, u, s), Stage(r1, r2, s.(tf0 := u, tf1 := u)),
                 Stage(y1, z1, s.(tf0 := u, tf1 := u, dc0 := r2, dc1 := z1)));
  }

  /** The first frame of (1, 1) through `SoftAtFullDrive`, for t = tanh 20: both outputs
      are below 1. */
  lemma SoftClipFirstFrame(m: Math)
    requires Lawful(m)
    ensures var a, th := ToneAlpha(0.5, 44100.0), m.tanh(20.0);
      var o := TickSpec(m, SoftAtFullDrive(), 1.0, 1.0);
      && o.left == 0.7 * (0.5 * th * (1.0 + a)) && o.right == 0.7 * (th * (0.9975 * a + 0.4975))
      && o.left < 1.0 && o.right < 1.0
  {
    var s := SoftAtFullDrive();
    var a, th := ToneAlpha(0.5, 44100.0), m.tanh(20.0);
    SoftFirstFrameValues(m, s, a, th);
    MidToneAlpha();
    FirstFrameBound(th, a);
  }

  /** A Soft, full-drive frame of (1, 1) into an engine with no history, tone 0.5 and level
      0.7, with the state it leaves. */
  lemma SoftFirstFrameValues(m: Math, s: EngineState, a: real, th: real)
    requires Lawful(m) && Invariant(s) && s.kind == Soft && s.drive == 1.0
    requires s.tone == 0.5 && s.level == 0.7
    requires s.tf0 == 0.0 && s.tf1 == 0.0 && s.dc0 == 0.0 && s.dc1 == 0.0
    requires a == ToneAlpha(s.tone, s.sampleRate) && th == m.tanh(20.0)
    ensures TickSpec(m, s, 1.0, 1.0)
         == Stage(0.7 * (0.5 * th * (1.0 + a)), 0.7 * (th * (0.9975 * a + 0.4975)),
                  s.(tf0 := th, tf1 := th, dc0 := th * (a + 0.5), dc1 := th * (0.9975 * a + 0.4975)))
  {
    var r1, r2, y1, z1 := FirstFrameArith(s, a, th);
    SoftFrame(m, s, 1.0, a, th, r1, r2, y1, z1);
  }

  /** The tone and DC values of the first frame from no history, in closed form. */
  lemma FirstFrameArith(s: EngineState, a: real, th: real)
      returns (r1: real, r2: real, y1: real, z1: real)
    requires s.tone == 0.5 && s.level == 0.7
    requires s.tf0 == 0.0 && s.tf1 == 0.0 && s.dc0 == 0.0 && s.dc1 == 0.0
    ensures r1 == a * (s.tf0 + th - s.tf1) * s.tone + th * (1.0 - s.tone)
    ensures r2 == a * (th + th - s.tf0) * s.tone + th * (1.0 - s.tone)
    ensures y1 == r1 - s.dc0 + DcAlpha * s.dc1
    ensures z1 == r2 - r1 + DcAlpha * y1
    ensures r2 == th * (a + 0.5) && z1 == th * (0.9975 * a + 0.4975)
    ensures y1 * s.level == 0.7 * (0.5 * th * (1.0 + a))
    ensures z1 * s.level == 0.7 * (th * (0.9975 * a + 0.4975))
  {
    r1 := a * (s.tf0 + th - s.tf1) * s.tone + th * (1.0 - s.tone);
    r2 := a * (th + th - s.tf0) * s.tone + th * (1.0 - s.tone);
    y1 := r1 - s.dc0 + DcAlpha * s.dc1;
    z1 := r2 - r1 + DcAlpha * y1;
    FirstFrameClosed(a, th, s.tf0, s.tf1, s.tone, s.dc0, s.dc1, s.level, r1, r2, y1, z1);
  }

  lemma FirstFrameClosed(a: real, th: real, tf0: real, tf1: real, tone: real,
                         dc0: real, dc1: real, level: real, r1: real, r2: real, y1: real, z1: real)
    requires tf0 == 0.0 && tf1 == 0.0 && dc0 == 0.0 && dc1 == 0.0 && tone == 0.5 && level == 0.7
    requires r1 == a * (tf0 + th - tf1) * tone + th * (1.0 - tone)
    requires r2 == a * (th + th - tf0) * tone + th * (1.0 - tone)
    requires y1 == r1 - dc0 + DcAlpha * dc1
    requires z1 == r2 - r1 + DcAlpha * y1
    ensures r2 == th * (a + 0.5) && z1 == th * (0.9975 * a + 0.4975)
    ensures y1 * level == 0.7 * (0.5 * th * (1.0 + a))
    ensures z1 * level == 0.7 * (th * (0.9975 * a + 0.4975))
  {
  }

  lemma FirstFrameBound(th: real, a: real)
    requires -1.0 < th < 1.0 && 0.86 < a < 0.87
    ensures 0.7 * (0.5 * th * (1.0 + a)) < 1.0 && 0.7 * (th * (0.9975 * a + 0.4975)) < 1.0
  {
  }

  /** The second frame, (-1, -1), after the first: both outputs stay above -2. */
  lemma SoftClipSecondFrame(m: Math)
    requires Lawful(m)
    ensures var o := TickSpec(m, SoftAtFullDrive(), 1.0, 1.0);
      var o2 := TickSpec(m, o.state, -1.0, -1.0);
      o2.left > -2.0 && o2.right > -2.0
  {
    var s := SoftAtFullDrive();
    MidToneAlpha();
    SoftTwoFrames(m, s, ToneAlpha(s.tone, s.sampleRate), m.tanh(20.0), m.tanh(-20.0));
  }

  /** Two frames, (1, 1) then (-1, -1), through a Soft full-drive engine with no history,
      tone 0.5 and level 0.7. */
  lemma SoftTwoFrames(m: Math, s: EngineState, a: real, th: real, u: real)
    requires Lawful(m) && Invariant(s) && s.kind == Soft && s.drive == 1.0
    requires s.tone == 0.5 && s.level == 0.7
    requires s.tf0 == 0.0 && s.tf1 == 0.0 && s.dc0 == 0.0 && s.dc1 == 0.0
    requires a == ToneAlpha(s.tone, s.sampleRate) && 0.86 < a < 0.87
    requires th == m.tanh(20.0) && u == m.tanh(-20.0)
    ensures var o := TickSpec(m, s, 1.0, 1.0);
      var o2 := TickSpec(m, o.state, -1.0, -1.0);
      o2.left > -2.0 && o2.right > -2.0
  {
    SoftFirstFrameValues(m, s, a, th);
    SoftSecondFrameBound(m, TickSpec(m, s, 1.0, 1.0).state, a, th, u);
  }

  /** The second frame, (-1, -1), from the state the first frame leaves. */
  lemma SoftSecondFrameBound(m: Math, s1: EngineState, a: real, th: real, u: real)
    requires Lawful(m) && Invariant(s1) && s1.kind == Soft && s1.drive == 1.0
    requires s1.tone == 0.5 && s1.level == 0.7
    requires a == ToneAlpha(s1.tone, s1.sampleRate) && 0.86 < a < 0.87
    requires th == m.tanh(20.0) && u == m.tanh(-20.0)
    requires s1.tf0 == th && s1.tf1 == th
    requires s1.dc0 == th * (a + 0.5) && s1.dc1 == th * (0.9975 * a + 0.4975)
    ensures var o2 := TickSpec(m, s1, -1.0, -1.0);
      o2.left > -2.0 && o2.right > -2.0
  {
    var r1, r2, y1, z1 := SecondFrameArith(s1, a, th, u);
    SoftFrame(m, s1, -1.0, a, u, r1, r2, y1, z1);
  }

  /** The tone and DC values of the second frame, and that both stay above -2 once
      levelled. */
  lemma SecondFrameArith(s1: EngineState, a: real, th: real, u: real)
      returns (r1: real, r2: real, y1: real, z1: real)
    requires -1.0 < th < 1.0 && -1.0 < u < 1.0 && 0.86 < a < 0.87
    requires s1.tone == 0.5 && s1.level == 0.7
    requires s1.tf0 == th && s1.tf1 == th
    requires s1.dc0 == th * (a + 0.5) && s1.dc1 == th * (0.9975 * a + 0.4975)
    ensures r1 == a * (s1.tf0 + u - s1.tf1) * s1.tone + u * (1.0 - s1.tone)
    ensures r2 == a * (u + u - s1.tf0) * s1.tone + u * (1.0 - s1.tone)
    ensures y1 == r1 - s1.dc0 + DcAlpha * s1.dc1
    ensures z1 == r2 - r1 + DcAlpha * y1
    ensures y1 * s1.level > -2.0 && z1 * s1.level > -2.0
  {
    r1 := a * (s1.tf0 + u - s1.tf1) * s1.tone + u * (1.0 - s1.tone);
    r2 := a * (u + u - s1.tf0) * s1.tone + u * (1.0 - s1.tone);
    y1 := r1 - s1.dc0 + DcAlpha * s1.dc1;
    z1 := r2 - r1 + DcAlpha * y1;
    SecondFrameBound(th, u, a, s1.tf0, s1.tf1, s1.tone, s1.dc0, s1.dc1, s1.level, r1, r2, y1, z1);
  }

  lemma SecondFrameBound(th: real, u: real, a: real, tf0: real, tf1: real, tone: real,
                         dc0: real, dc1: real, level: real, r1: real, r2: real, y1: real, z1: real)
    requires -1.0 < th < 1.0 && -1.0 < u < 1.0 && 0.86 < a < 0.87
    requires tf0 == th && tf1 == th && tone == 0.5 && level == 0.7
    requires dc0 == th * (a + 0.5) && dc1 == th * (0.9975 * a + 0.4975)
    requires r1 == a * (tf0 + u - tf1) * tone + u * (1.0 - tone)
    requires r2 == a * (u + u - tf0) * tone + u * (1.0 - tone)
    requires y1 == r1 - dc0 + DcAlpha * dc1
    requires z1 == r2 - r1 + DcAlpha * y1
    ensures y1 * level > -2.0 && z1 * level > -2.0
  {
  }
}
