/** The engine's unit tests, as methods that drive a real `Distortion` object and state in
    their postconditions what each test asserts. */
module DistortionScenarios {
  import opened Maths
  import opened DistortionEngine
  import opened DistortionProperties

  /** A new engine has the requested sample rate, drive 0.5 and level 0.7. */
  method Creation(math: Math) returns (sampleRate: real, drive: real, level: real)
    requires Lawful(math)
    ensures sampleRate == 44100.0 && drive == 0.5 && level == 0.7
  {
    var d := new Distortion(44100, math);
    sampleRate, drive, level := d.sampleRate, d.drive, d.level;
  }

  /** Soft mode at full drive: the frame (1, 1) comes out below 1 on both channels, and the
      following frame (-1, -1) stays above -2. */
  method SoftClipping(math: Math) returns (left1: real, right1: real, left2: real, right2: real)
    requires Lawful(math)
    ensures left1 < 1.0 && right1 < 1.0
    ensures left2 > -2.0 && right2 > -2.0
  {
    var d := new Distortion(44100, math);
    d.SetDistortionType(Soft);
    d.SetDrive(1.0);
    assert d.State() == SoftAtFullDrive();
    left1, right1 := d.Tick(1.0, 1.0);
    SoftClipFirstFrame(math);
    left2, right2 := d.Tick(-1.0, -1.0);
    SoftClipSecondFrame(math);
  }

  /** Hard mode at full drive: the frame (2, 2) comes out at most 1 on both channels. */
  method HardClipping(math: Math) returns (left: real, right: real)
    requires Lawful(math)
    ensures left <= 1.0 && right <= 1.0
  {
    var d := new Distortion(44100, math);
    d.SetDistortionType(Hard);
    d.SetDrive(1.0);
    assert d.State() == HardAtFullDrive();
    left, right := d.Tick(2.0, 2.0);
    HardClipFrame(math);
  }

  /** Drive, level and tone set to -1 read back 0, and set to 2 read back 1. */
  method ParameterBounds(math: Math)
    returns (drive0: real, drive1: real, level0: real, level1: real, tone0: real, tone1: real)
    requires Lawful(math)
    ensures drive0 == 0.0 && drive1 == 1.0
    ensures level0 == 0.0 && level1 == 1.0
    ensures tone0 == 0.0 && tone1 == 1.0
  {
    var d := new Distortion(44100, math);
    d.SetDrive(-1.0);
    drive0 := d.drive;
    d.SetDrive(2.0);
    drive1 := d.drive;
    d.SetLevel(-1.0);
    level0 := d.level;
    d.SetLevel(2.0);
    level1 := d.level;
    d.SetTone(-1.0);
    tone0 := d.tone;
    d.SetTone(2.0);
    tone1 := d.tone;
  }

  /** After a frame and a `reset`, both filter histories, the counter and the held sample
      read back zero. */
  method ResetClears(math: Math)
    returns (dcBlocker: seq<real>, toneFilter: seq<real>, counter: real, lastSample: real)
    requires Lawful(math)
    ensures dcBlocker == [0.0, 0.0] && toneFilter == [0.0, 0.0]
    ensures counter == 0.0 && lastSample == 0.0
  {
    var d := new Distortion(44100, math);
    var _, _ := d.Tick(0.5, 0.5);
    d.Reset();
    dcBlocker, toneFilter := d.dcBlocker[..], d.toneFilter[..];
    counter, lastSample := d.bitCrusherCounter, d.lastSample;
  }
}
