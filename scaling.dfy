/** The fixed scale factor of ten between raw register values and physical
    values: readings are divided by ten, corrections are multiplied by ten and
    truncated toward zero, as Python's `int()` does. */
module Scaling {
  import opened RegisterMap
  import opened Modbus

  /** A reading in tenths: the physical value is the raw register over ten. */
  function DecodeMeasurement(raw: Register): (v: real)
    ensures v * 10.0 == raw as real
    ensures 0.0 <= v < 6553.6
  {
    raw as real / 10.0
  }

  /** The largest raw correction, MaxCorrection in tenths. */
  const MaxCorrectionRaw: int := 1000

  /** The whole part of a non-negative `m` no larger than MaxCorrectionRaw,
      found by counting up from `k`. */
  function TruncateMagnitude(m: real, k: nat): (n: nat)
    requires k as real <= m <= MaxCorrectionRaw as real
    ensures k <= n <= MaxCorrectionRaw
    ensures n as real <= m < n as real + 1.0
    decreases MaxCorrectionRaw - k
  {
    if m < (k + 1) as real then k else TruncateMagnitude(m, k + 1)
  }

  /** Python's `int()` on a number: drops the fraction, toward zero, so that
      the result is never farther from zero than `x`. */
  function TruncateTowardZero(x: real): (n: int)
    requires -(MaxCorrectionRaw as real) <= x <= MaxCorrectionRaw as real
    ensures -MaxCorrectionRaw <= n <= MaxCorrectionRaw
    ensures 0.0 <= x ==> 0 <= n && n as real <= x < n as real + 1.0
    ensures x < 0.0 ==> n <= 0 && n as real - 1.0 < x <= n as real
  {
    if 0.0 <= x then TruncateMagnitude(x, 0) else -(TruncateMagnitude(-x, 0) as int)
  }

  /** The characterisation in TruncateTowardZero's contract has one solution. */
  lemma TruncateTowardZeroUnique(x: real, n: int)
    requires -(MaxCorrectionRaw as real) <= x <= MaxCorrectionRaw as real
    requires 0.0 <= x ==> 0 <= n && n as real <= x < n as real + 1.0
    requires x < 0.0 ==> n <= 0 && n as real - 1.0 < x <= n as real
    ensures n == TruncateTowardZero(x)
  {
  }

  /** The physical value of a raw correction, tenths of a degree or percent. */
  function DecodeCorrection(raw: int): real
  {
    raw as real / 10.0
  }

  /** `int(correction * 10)`: the raw value is within one tenth of the
      correction and never farther from zero than it. */
  function EncodeCorrection(c: real): (raw: int)
    requires InCorrectionRange(c)
    ensures -MaxCorrectionRaw <= raw <= MaxCorrectionRaw
    ensures 0.0 <= c ==> 0.0 <= DecodeCorrection(raw) <= c < DecodeCorrection(raw) + 0.1
    ensures c < 0.0 ==> DecodeCorrection(raw) - 0.1 < c <= DecodeCorrection(raw) <= 0.0
  {
    TruncateTowardZero(c * 10.0)
  }

  /** Every raw correction the setters can write is written for exactly the
      correction it stands for: encoding after decoding is the identity. */
  lemma EncodeDecodeCorrection(raw: int)
    requires -MaxCorrectionRaw <= raw <= MaxCorrectionRaw
    ensures InCorrectionRange(DecodeCorrection(raw))
    ensures EncodeCorrection(DecodeCorrection(raw)) == raw
  {
  }

  /** Truncation is symmetric about zero, which flooring is not: a correction
      and its negation are written as opposite raw values. */
  lemma EncodeCorrectionOdd(c: real)
    requires InCorrectionRange(c)
    ensures EncodeCorrection(-c) == -EncodeCorrection(c)
  {
  }

  /** A larger correction never gets a smaller raw value. */
  lemma EncodeCorrectionMonotonic(c: real, d: real)
    requires InCorrectionRange(c) && InCorrectionRange(d)
    requires c <= d
    ensures EncodeCorrection(c) <= EncodeCorrection(d)
  {
  }

  /** Truncation, not rounding and not flooring: 0.19 is written as 1 (rounding
      gives 2) and -0.19 as -1 (flooring gives -2); -5.0 is written as -50. */
  lemma EncodeCorrectionExamples()
    ensures EncodeCorrection(0.19) == 1
    ensures EncodeCorrection(-0.19) == -1
    ensures EncodeCorrection(-5.0) == -50
  {
  }

  /** Raw readings 237 and 455 are 23.7 and 45.5. */
  lemma DecodeMeasurementExamples()
    ensures DecodeMeasurement(237) == 23.7
    ensures DecodeMeasurement(455) == 45.5
  {
  }
}
