/** Minutes played: reading the `tiempo_jugado` column, which holds either a
    number of minutes or "MM:SS" text, and writing the play-by-play results
    back into a box score row. */
module Tiempo {
  import opened Common
  import opened Text
  import opened Model

  /** `parseTiempoJugado`: the minutes a `tiempo_jugado` value stands for.
      Missing or empty text is 0, a number is taken as it is, "M:S" is M
      minutes and S seconds, text without a colon is read by `parseFloat`,
      and anything with more than one colon is 0. */
  function ParseTiempoJugado(t: Tiempo): real
  {
    match t
    case NoTime => 0.0
    case Minutes(x) => x
    case Clock(s) =>
      if s == "" then 0.0
      else
        var parts := Split(s, ':');
        if |parts| == 2 then ParseInt10Or0(parts[0]) as real + ParseInt10Or0(parts[1]) as real / 60.0
        else if |parts| == 1 then ParseFloatOr0(parts[0])
        else 0.0
  }

  /** The "M:SS" text of a positive number of seconds: whole minutes, a
      colon, and the remaining seconds padded to two digits. */
  function FormatSeconds(seconds: nat): string
  {
    NatToString(seconds / 60) + ":" + PadStart2(NatToString(seconds % 60))
  }

  /** Text with one colon reads as minutes and seconds. */
  lemma MinutesAndSeconds(a: string, b: string)
    requires ':' !in a && ':' !in b
    ensures ParseTiempoJugado(Clock(a + ":" + b)) ==
            ParseInt10Or0(a) as real + ParseInt10Or0(b) as real / 60.0
  {
    assert [a, b][1..] == [b];
    assert Join([a, b], ':') == a + ":" + b;
    SplitJoin([a, b], ':');
  }

  /** Formatting seconds and reading the text back gives the same time in
      minutes. */
  lemma FormatSecondsRoundTrip(seconds: nat)
    ensures ParseTiempoJugado(Clock(FormatSeconds(seconds))) == seconds as real / 60.0
  {
    var a, b := NatToString(seconds / 60), PadStart2(NatToString(seconds % 60));
    ParseIntNatToString(seconds / 60);
    ParseIntPadded(seconds % 60);
    PadStart2Value(seconds % 60);
    assert ':' !in a;
    assert ':' !in b by {
      assert forall i :: 0 <= i < |b| ==> IsDigit(b[i]);
    }
    MinutesAndSeconds(a, b);
    RealClock(seconds);
  }

  lemma RealClock(seconds: nat)
    ensures (seconds / 60) as real + (seconds % 60) as real / 60.0 == seconds as real / 60.0
  {
    var q, r := seconds / 60, seconds % 60;
    assert q * 60 + r == seconds;
    assert (q * 60 + r) as real == q as real * 60.0 + r as real;
  }

  /** Text with two colons or more reads as 0 minutes. */
  lemma TooManyColons(a: string, b: string, c: string)
    requires ':' !in a && ':' !in b && ':' !in c
    ensures ParseTiempoJugado(Clock(a + ":" + b + ":" + c)) == 0.0
  {
    assert [a, b, c][1..] == [b, c];
    assert [b, c][1..] == [c];
    assert Join([b, c], ':') == b + ":" + c;
    assert Join([a, b, c], ':') == a + ":" + b + ":" + c;
    SplitJoin([a, b, c], ':');
  }

  /** A bare whole number of minutes in text reads as that number. */
  lemma WholeMinutesText(n: nat)
    ensures ParseTiempoJugado(Clock(NatToString(n))) == n as real
  {
    ParseIntNatToString(n);
    assert ':' !in NatToString(n);
  }

  /** The text is "M:SS": the whole minutes in decimal, a colon, then
      exactly two digits that read as the remaining seconds. */
  lemma FormatSecondsShape(seconds: nat)
    ensures exists t: string ::
              && |t| == 2
              && (forall i :: 0 <= i < 2 ==> IsDigit(t[i]))
              && DecimalValue(t) == seconds % 60
              && FormatSeconds(seconds) == NatToString(seconds / 60) + ":" + t
  {
    PadStart2Value(seconds % 60);
    var t := PadStart2(NatToString(seconds % 60));
    assert FormatSeconds(seconds) == NatToString(seconds / 60) + ":" + t;
  }

  /** The `fetchTeamStats` write-back of one box score row: the plus/minus
      from the play-by-play replaces the stored one when there is one (the
      stored value, or 0, otherwise), and when the play-by-play credits the
      player with some seconds they replace `tiempo_jugado` as "M:SS" text.
      Nothing else in the row changes. */
  function WriteBack(s: StatRow, plusMinus: map<(MatchId, PlayerId), int>,
                     seconds: map<(MatchId, PlayerId), int>): (r: StatRow)
    ensures r == s.(masMenos := r.masMenos, tiempo := r.tiempo)
    ensures (s.matchId, s.playerId) in plusMinus ==> r.masMenos == Some(plusMinus[(s.matchId, s.playerId)])
    ensures (s.matchId, s.playerId) !in plusMinus ==>
              r.masMenos == Some(if s.masMenos.Some? then s.masMenos.value else 0)
    ensures GetOr(seconds, (s.matchId, s.playerId), 0) > 0 ==>
              ParseTiempoJugado(r.tiempo) == GetOr(seconds, (s.matchId, s.playerId), 0) as real / 60.0
    ensures GetOr(seconds, (s.matchId, s.playerId), 0) > 0 ==>
              r.tiempo == Clock(FormatSeconds(GetOr(seconds, (s.matchId, s.playerId), 0)))
    ensures GetOr(seconds, (s.matchId, s.playerId), 0) <= 0 ==> r.tiempo == s.tiempo
  {
    var key := (s.matchId, s.playerId);
    var secs := GetOr(seconds, key, 0);
    var pm := if key in plusMinus then plusMinus[key]
              else match s.masMenos { case Some(v) => v case None => 0 };
    if secs > 0 then
      FormatSecondsRoundTrip(secs);
      s.(masMenos := Some(pm), tiempo := Clock(FormatSeconds(secs)))
    else s.(masMenos := Some(pm))
  }
}
