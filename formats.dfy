/** The integer sample formats of the audio callbacks and their conversions to and from the
    floating-point sample range [-1, 1]. */
module SampleFormats {
  import opened Maths

  newtype I16 = x: int | -32768 <= x <= 32767
  newtype U16 = x: int | 0 <= x <= 65535

  const I16Max: real := 32767.0
  const U16Max: real := 65535.0

  /** Capture of an `i16` sample: divided by `i16::MAX`. */
  function FromI16(v: I16): (x: real)
    ensures -1.0 - 1.0 / I16Max <= x <= 1.0
    ensures v >= -32767 ==> -1.0 <= x
  {
    v as real / I16Max
  }

  /** Capture of a `u16` sample: divided by `u16::MAX`, then mapped onto [-1, 1]. */
  function FromU16(v: U16): (x: real)
    ensures -1.0 <= x <= 1.0
    ensures v == 0 ==> x == -1.0
    ensures v == 65535 ==> x == 1.0
  {
    (v as real / U16Max) * 2.0 - 1.0
  }

  /** Playback as `i16`: scaled by `i16::MAX`, then Rust's saturating float-to-integer cast. */
  function ToI16(x: real): (v: I16)
    ensures -1.0 <= x <= 1.0 ==> v as int == Trunc(x * I16Max) && -32767 <= v <= 32767
    ensures x == 1.0 ==> v == 32767
    ensures x == -1.0 ==> v == -32767
  {
    assert -1.0 <= x <= 1.0 ==> -32767 <= Trunc(x * I16Max) <= 32767 by {
      if -1.0 <= x <= 1.0 { TruncWithin(x * I16Max, -32767, 32767); }
    }
    SaturatingCast(x * I16Max, -32768, 32767) as I16
  }

  /** Playback as `u16`: mapped onto [0, 1], scaled by `u16::MAX`, then cast. */
  function ToU16(x: real): (v: U16)
    ensures -1.0 <= x <= 1.0 ==> v as int == Trunc((x + 1.0) * 0.5 * U16Max)
    ensures x == -1.0 ==> v == 0
    ensures x == 1.0 ==> v == 65535
  {
    assert -1.0 <= x <= 1.0 ==> 0 <= Trunc((x + 1.0) * 0.5 * U16Max) <= 65535 by {
      if -1.0 <= x <= 1.0 { TruncWithin((x + 1.0) * 0.5 * U16Max, 0, 65535); }
    }
    SaturatingCast((x + 1.0) * 0.5 * U16Max, 0, 65535) as U16
  }

  /** Truncation keeps a value between two integers between them. */
  lemma TruncWithin(y: real, lo: int, hi: int)
    requires lo as real <= y <= hi as real
    ensures lo <= Trunc(y) <= hi
  {
    if y >= 0.0 {
      assert Trunc(y) == y.Floor;
    } else {
      assert Trunc(y) == -((-y).Floor);
    }
  }

  /** Every `i16` sample survives capture followed by playback. */
  lemma I16RoundTrip(v: I16)
    ensures ToI16(FromI16(v)) == v
  {
    assert FromI16(v) * I16Max == v as real;
  }

  /** Every `u16` sample survives capture followed by playback, over exact reals. */
  lemma U16RoundTrip(v: U16)
    ensures ToU16(FromU16(v)) == v
  {
    assert (FromU16(v) + 1.0) * 0.5 * U16Max == v as real;
  }
}
