/** What the default configuration implies for the engine. */
module Defaults {
  import opened Wrappers
  import opened Configuration
  import opened RestartTime
  import opened Notification
  import opened Players

  /** The default restart time is 03:50, so a default countdown never fails. */
  lemma DefaultRestartTimeIsValid(now: real)
    requires ValidNow(now)
    ensures ParseRestartTime(Default.restartTime) == Some(TimeOfDay(3, 50))
    ensures 0.0 < CalculateTimeUntilRestart(Default.restartTime, now) <= SecondsPerDay
  {
    ParseFormatRoundTrip(TimeOfDay(3, 50));
    assert FormatRestartTime(TimeOfDay(3, 50)) == Default.restartTime;
  }

  /** Under the default thresholds a server with at most one player always passes the gate. */
  lemma DefaultGateAdmitsOnePlayer(players: nat, visibleMaxPlayers: Option<int>, serverMaxPlayers: int)
    requires EffectiveSlots(visibleMaxPlayers, serverMaxPlayers) > 0
    requires players <= 1
    ensures Default.minPlayersInstantShutdown == 1
    ensures CheckPlayers(Default, players, visibleMaxPlayers, serverMaxPlayers)
  {
  }

  /** The notify-before-restart switch changes neither the notice nor the gate. */
  lemma NotifySwitchIsInert(config: PluginConfig, notify: bool, players: nat,
                            visibleMaxPlayers: Option<int>, serverMaxPlayers: int, now: real)
    requires ValidNow(now)
    requires EffectiveSlots(visibleMaxPlayers, serverMaxPlayers) > 0
    ensures var changed := config.(notifyPlayersBeforeRestart := notify);
      && NoticeFor(changed, now) == NoticeFor(config, now)
      && CheckPlayers(changed, players, visibleMaxPlayers, serverMaxPlayers)
         == CheckPlayers(config, players, visibleMaxPlayers, serverMaxPlayers)
  {
  }
}
