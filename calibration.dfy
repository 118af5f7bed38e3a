/**
 * The decibel recalibration and clamp that both POST /reports handlers apply
 * before storing a report: a reading that rounds to -1 or below is taken as
 * dBFS and shifted by the calibration offset, and the result is clamped to
 * the range the database column accepts.
 */
module Calibration {
  import opened Js

  const ClientNegativeThreshold: int := -1
  const DefaultOffset: real := 115.0
  const MinDb: int := 0
  const MaxDb: int := 200

  /**
   * `parseFloat(process.env.DB_CALIB_OFFSET) || 115`, where `env` is what
   * parseFloat produced (NaN when the variable is unset or does not parse).
   * NaN and zero are falsy, so both fall back to 115.
   */
  function Offset(env: Num): (offset: Num)
    ensures offset != NaN && offset != Finite(0.0)
    ensures env != NaN && env != Finite(0.0) ==> offset == env
    ensures offset == Finite(DefaultOffset) <==> env in {NaN, Finite(0.0), Finite(DefaultOffset)}
  {
    if env == NaN || env == Finite(0.0) then Finite(DefaultOffset) else env
  }

  /** `Math.max(0, Math.min(200, x))` */
  function Clamp(x: int): (y: int)
    ensures MinDb <= y <= MaxDb
    ensures MinDb <= x <= MaxDb ==> y == x
    ensures x < MinDb ==> y == MinDb
    ensures x > MaxDb ==> y == MaxDb
  {
    if x < MinDb then MinDb else if x > MaxDb then MaxDb else x
  }

  /**
   * The value stored for a finite `decibels` reading. An infinite offset makes
   * `Math.round(r + offset)` infinite, and the clamp then yields 200 or 0.
   */
  function Calibrate(decibels: real, env: Num): (stored: int)
    ensures MinDb <= stored <= MaxDb
    ensures Round(decibels) > ClientNegativeThreshold ==> stored == Clamp(Round(decibels))
    ensures Round(decibels) <= ClientNegativeThreshold && Offset(env).Finite? ==>
              stored == Clamp(Round(decibels) + Round(Offset(env).r))
  {
    var r := Round(decibels);
    if r <= ClientNegativeThreshold then
      var offset := Offset(env);
      if offset.PosInf? then MaxDb
      else if offset.NegInf? then MinDb
      else Clamp(Round(r as real + offset.r))
    else
      Clamp(r)
  }

  /** Math.round(k + o) for an integer k is k + Math.round(o). */
  lemma {:induction false} RoundShift(k: int, o: real)
    ensures Round(k as real + o) == k + Round(o)
  {
  }

  /**
   * With the default offset a dBFS-style reading r (rounding to -1 or below)
   * is stored as r + 115, floored at 0; e.g. -20 is stored as 95.
   */
  lemma {:induction false} DefaultRecalibration(decibels: real, env: Num)
    requires env == NaN || env == Finite(0.0)
    requires Round(decibels) <= ClientNegativeThreshold
    ensures Calibrate(decibels, env) == Clamp(Round(decibels) + 115)
    ensures Calibrate(-20.0, env) == 95
  {
  }

  /** A stored value is stored unchanged when it is submitted again. */
  lemma {:induction false} CalibrateIdempotent(decibels: real, env: Num)
    ensures Calibrate(Calibrate(decibels, env) as real, env) == Calibrate(decibels, env)
  {
    RoundProperties(0.0, 0.0, Calibrate(decibels, env));
  }
}
