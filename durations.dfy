/** The two ways the system turns a start and an end time into minutes: the
    server's `Math.round` of the elapsed milliseconds over 60000, and the
    client's date-fns `differenceInMinutes`, which drops the fraction. */
module Durations {
  import opened Common

  /** Server side: Math.round((endTime - startTime) / 60000). */
  function RoundedMinutes(endTime: int, startTime: int): int {
    RoundDiv(endTime - startTime, MinuteMs)
  }

  /** The server's figure is the nearest whole minute to the span, half a
      minute rounding up. */
  lemma RoundedMinutesNearest(endTime: int, startTime: int)
    ensures var m, span := RoundedMinutes(endTime, startTime), endTime - startTime;
      120000 * m - 60000 <= 2 * span < 120000 * m + 60000
  {
    RoundDivBounds(endTime - startTime, MinuteMs);
  }

  /** Client side: differenceInMinutes(endTime, startTime). */
  function WholeMinutes(endTime: int, startTime: int): int {
    TruncDiv(endTime - startTime, MinuteMs)
  }

  /** The client's figure counts the whole minutes in the span, the fraction
      dropped (towards zero when the end lies before the start). */
  lemma WholeMinutesTruncates(endTime: int, startTime: int)
    ensures var m, span := WholeMinutes(endTime, startTime), endTime - startTime;
      && (span >= 0 ==> 0 <= 60000 * m <= span < 60000 * m + 60000)
      && (span < 0 ==> 60000 * m - 60000 < span <= 60000 * m <= 0)
  {
    TruncDivBounds(endTime - startTime, MinuteMs);
  }

  /** When the end does not lie before the start, the two sides differ by
      at most one minute, and they differ exactly when at least half a
      minute is left over. */
  lemma RoundedVersusWhole(endTime: int, startTime: int)
    requires endTime >= startTime
    ensures var span := endTime - startTime;
      RoundedMinutes(endTime, startTime) - WholeMinutes(endTime, startTime)
        == (if span % MinuteMs >= MinuteMs / 2 then 1 else 0)
  {
    var ms := endTime - startTime;
    var w, rest := ms / MinuteMs, ms % MinuteMs;
    assert ms == w * MinuteMs + rest;
    assert WholeMinutes(endTime, startTime) == w;
    if rest >= MinuteMs / 2 {
      assert 2 * ms + MinuteMs == (w + 1) * (2 * MinuteMs) + (2 * rest - MinuteMs);
      assert RoundedMinutes(endTime, startTime) == w + 1;
    } else {
      assert 2 * ms + MinuteMs == w * (2 * MinuteMs) + (2 * rest + MinuteMs);
      assert RoundedMinutes(endTime, startTime) == w;
    }
  }

  /** Forty-seven and a half minutes: 48 on the server, 47 on the client. */
  lemma HalfMinuteExample(startTime: int)
    ensures RoundedMinutes(startTime + 47 * MinuteMs + 30000, startTime) == 48
    ensures WholeMinutes(startTime + 47 * MinuteMs + 30000, startTime) == 47
  {
    RoundedVersusWhole(startTime + 47 * MinuteMs + 30000, startTime);
  }
}
