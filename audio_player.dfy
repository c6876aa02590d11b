/** The waveform player's clock: `formatTime` renders a number of seconds as
    minutes, a colon and two-digit seconds. */
module AudioPlayer {
  import opened JsText

  /** `Math.trunc`, the rounding of JavaScript's `%`. */
  function Trunc(x: real): int {
    if x >= 0.0 then x.Floor else -((-x).Floor)
  }

  /** JavaScript's `x % 60`: the remainder takes the sign of `x`. */
  function Rem60(x: real): (r: real)
    ensures x >= 0.0 ==> 0.0 <= r < 60.0
    ensures x < 0.0 ==> -60.0 < r <= 0.0
  {
    x - 60.0 * (Trunc(x / 60.0) as real)
  }

  /** `formatTime`: `Math.floor(s / 60)`, a colon, and `Math.floor(s % 60)`
      padded to two characters. */
  function FormatTime(seconds: real): string {
    IntToString((seconds / 60.0).Floor) + ":" + PadStart2(IntToString(Rem60(seconds).Floor))
  }

  /** The clock a whole number of seconds reads as. */
  function Clock(n: nat): string {
    NatToString(n / 60) + ":" + PadStart2(NatToString(n % 60))
  }

  /** For a time of zero or more, the clock shows the whole seconds elapsed. */
  lemma {:induction false} FormatTimeIsClock(seconds: real)
    requires seconds >= 0.0
    ensures seconds.Floor >= 0 && FormatTime(seconds) == Clock(seconds.Floor)
  {
    var n := seconds.Floor;
    var m, k := n / 60, n % 60;
    assert n == 60 * m + k && 0 <= k < 60;
    assert (m as real) <= seconds / 60.0 < (m + 1) as real by {
      assert (n as real) <= seconds < (n + 1) as real;
      assert (60 * m) as real <= seconds;
      assert seconds < (60 * m + 60) as real;
    }
    assert (seconds / 60.0).Floor == m;
    assert Trunc(seconds / 60.0) == m;
    assert Rem60(seconds) == seconds - (60 * m) as real;
    assert (k as real) <= Rem60(seconds) < (k + 1) as real;
    assert Rem60(seconds).Floor == k;
  }

  /** A clock reads back: the digits before the colon and the two after it
      give the minutes and seconds, and so the whole seconds. */
  lemma {:induction false} ClockReadsBack(n: nat)
    ensures var r := Clock(n);
      && |r| >= 4 && r[|r| - 3] == ':'
      && AllDigits(r[..|r| - 3]) && AllDigits(r[|r| - 2..])
      && DigitsValue(r[..|r| - 3]) == n / 60
      && DigitsValue(r[|r| - 2..]) == n % 60
      && 60 * DigitsValue(r[..|r| - 3]) + DigitsValue(r[|r| - 2..]) == n
  {
    var mins, secs := NatToString(n / 60), NatToString(n % 60);
    var padded := PadStart2(secs);
    var r := Clock(n);
    NatToStringRoundTrip(n / 60);
    NatToStringRoundTrip(n % 60);
    assert |secs| <= 2 by {
      if n % 60 >= 10 {
        assert secs == NatToString((n % 60) / 10) + [DigitChar((n % 60) % 10)];
      }
    }
    assert |padded| == 2 && AllDigits(padded) && DigitsValue(padded) == n % 60 by {
      if |secs| == 1 {
        assert padded == "0" + secs;
        assert padded[..1] == "0";
      }
    }
    assert r == mins + ":" + padded;
    assert r[..|r| - 3] == mins;
    assert r[|r| - 2..] == padded;
  }
}
