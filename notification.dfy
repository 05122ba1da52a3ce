/**
 * The restart notice sent to one player (NotifyPlayerAboutRestart): the
 * countdown shown in whole minutes or seconds, and the absolute restart
 * moment. Localised labels are reduced to the unit they name.
 */
module Notification {
  import opened RestartTime
  import opened Configuration

  datatype TimeUnit = Minute | Second

  /** "<amount> <unit label><plural suffix>". */
  datatype CountdownText = CountdownText(amount: int, unit: TimeUnit, plural: bool)

  /**
   * Unit, shown number and plural suffix for a countdown of `seconds`:
   * minutes once at least one full minute remains, otherwise seconds; the
   * number is rounded down, while the suffix is decided on the value
   * before rounding.
   */
  function SelectCountdownText(seconds: real): (t: CountdownText)
    requires seconds >= 0.0
    ensures t.unit == Minute <==> seconds >= 60.0
    ensures t.unit == Minute ==>
      1 <= t.amount && t.amount as real * 60.0 <= seconds < (t.amount + 1) as real * 60.0
    ensures t.unit == Second ==>
      0 <= t.amount && t.amount as real <= seconds < (t.amount + 1) as real
    ensures t.plural <==> (if t.unit == Minute then seconds > 60.0 else seconds > 1.0)
  {
    var minutes := seconds / 60.0;
    var useMinutes := minutes >= 1.0;
    var display := if useMinutes then minutes else seconds;
    CountdownText(display.Floor, if useMinutes then Minute else Second, display > 1.0)
  }

  /**
   * The label says plural while the shown number is 1 exactly when between
   * one and two units remain, e.g. 90 seconds reads "1 minutes".
   */
  lemma PluralWithAmountOne(seconds: real)
    requires seconds >= 0.0
    ensures var t := SelectCountdownText(seconds);
            t.plural && t.amount == 1 <==> (1.0 < seconds < 2.0 || 60.0 < seconds < 120.0)
  {
    var t := SelectCountdownText(seconds);
    if 60.0 < seconds < 120.0 {
      assert t.unit == Minute;
      assert t.amount == 1;
    }
  }

  /** The boundary cases of the countdown text. */
  lemma CountdownTextExamples()
    ensures SelectCountdownText(59.0) == CountdownText(59, Second, true)
    ensures SelectCountdownText(1.0) == CountdownText(1, Second, false)
    ensures SelectCountdownText(60.0) == CountdownText(1, Minute, false)
    ensures SelectCountdownText(90.0) == CountdownText(1, Minute, true)
    ensures SelectCountdownText(3600.0) == CountdownText(60, Minute, true)
  {
  }

  /** What one player is told: an error line, or the countdown and the moment of restart. */
  datatype Notice =
    | CannotCalculate
    | RestartIn(text: CountdownText, restartAt: real)   // restartAt: seconds since today's midnight

  /** The notice a player receives at time `now` under `config`. */
  function NoticeFor(config: PluginConfig, now: real): (n: Notice)
    requires ValidNow(now)
    ensures n.CannotCalculate? <==> ParseRestartTime(config.restartTime).None?
    ensures n.RestartIn? ==>
      var target := SecondOfDay(ParseRestartTime(config.restartTime).value);
      && (n.restartAt == target || n.restartAt == target + SecondsPerDay)
      && now < n.restartAt <= now + SecondsPerDay
      && n.text == SelectCountdownText(n.restartAt - now)
  {
    var seconds := CalculateTimeUntilRestart(config.restartTime, now);
    if seconds < 0.0 then CannotCalculate
    else RestartIn(SelectCountdownText(seconds), now + seconds)
  }
}
