/**
 * The audio measurement both revisions of the reporting page share:
 * `calculateRMS` over one channel of samples, `Math.round` of the displayed
 * level, and `parseInt` of the text the level is shown as.
 */
module AudioLevel {
  import opened Js

  function SumSq(s: seq<real>): real {
    if s == [] then 0.0 else SumSq(s[..|s| - 1]) + s[|s| - 1] * s[|s| - 1]
  }

  /** A channel of zero samples sums to zero. */
  lemma {:induction false} SilentSumsToZero(s: seq<real>)
    ensures (forall i :: 0 <= i < |s| ==> s[i] == 0.0) ==> SumSq(s) == 0.0
  {
    if s != [] && forall i :: 0 <= i < |s| ==> s[i] == 0.0 {
      var init := s[..|s| - 1];
      assert forall i :: 0 <= i < |init| ==> init[i] == s[i];
      SilentSumsToZero(init);
      assert s[|s| - 1] == 0.0;
    }
  }

  /**
   * The root mean square `Math.sqrt(sum / channelData.length)`, kept as the
   * three cases the page tells apart: no samples (0 / 0 is NaN), a zero sum
   * of squares (exactly 0), or a mean square whose logarithm the page takes.
   */
  datatype Rms = NoSamples | Silent | Positive(meanSquare: real)

  function RmsOf(s: seq<real>): (rms: Rms)
    ensures rms.NoSamples? <==> s == []
    ensures rms.Silent? <==> s != [] && SumSq(s) == 0.0
    ensures s != [] && (forall i :: 0 <= i < |s| ==> s[i] == 0.0) ==> rms.Silent?
  {
    SilentSumsToZero(s);
    if s == [] then NoSamples
    else if SumSq(s) == 0.0 then Silent
    else Positive(SumSq(s) / |s| as real)
  }

  /** `calculateRMS`: the accumulating loop over the channel. */
  method CalculateRms(channel: array<real>) returns (rms: Rms)
    ensures rms == RmsOf(channel[..])
  {
    var sum := 0.0;
    var i := 0;
    while i < channel.Length
      invariant 0 <= i <= channel.Length
      invariant sum == SumSq(channel[..i])
    {
      assert channel[..i + 1][..i] == channel[..i];
      sum := sum + channel[i] * channel[i];
      i := i + 1;
    }
    assert channel[..channel.Length] == channel[..];
    if channel.Length == 0 {
      rms := NoSamples;
    } else if sum == 0.0 {
      rms := Silent;
    } else {
      rms := Positive(sum / channel.Length as real);
    }
  }

  /** `Math.round` on a number: infinities and NaN stay as they are. */
  function RoundNum(n: Num): (m: Num)
    ensures n.Finite? <==> m.Finite?
    ensures n.Finite? ==> m.r == Round(n.r) as real
    ensures !n.Finite? ==> m == n
  {
    if n.Finite? then Finite(Round(n.r) as real) else n
  }

  /**
   * `parseInt(dbValue.textContent)` after the rounded level was written to the
   * page: an integer reads back as itself; `-Infinity` and `NaN` read back as NaN.
   */
  function ParsedDb(rounded: Num): (n: Option<int>)
    ensures n.Some? <==> rounded.Finite?
  {
    if rounded.Finite? then Some(rounded.r.Floor) else None
  }

  /** Writing a rounded level and reading it back gives the rounded value. */
  lemma {:induction false} DisplayRoundTrip(x: real)
    ensures ParsedDb(RoundNum(Finite(x))) == Some(Round(x))
  {
  }

  /** `n > t` in JavaScript: false for NaN and minus infinity. */
  predicate Above(n: Num, t: real) {
    n.PosInf? || (n.Finite? && n.r > t)
  }
}
