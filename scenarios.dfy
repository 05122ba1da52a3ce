/**
 * Short event sequences driven against a fresh plugin object, showing what
 * the method contracts of AutoRestart imply for the host-visible record.
 */
module Scenarios {
  import opened Wrappers
  import opened Configuration
  import opened RestartTime
  import opened Notification
  import opened Players
  import opened ActionLog
  import opened Defaults
  import opened AutoRestartPlugin

  /** A current player joins on a free slot and spawns: one notice, and the slot is marked. */
  method JoinAndSpawn(plugin: AutoRestart, p: Player, now: real)
    requires plugin.Valid() && ValidNow(now)
    requires IsCurrent(p) && SpawnNotifies(p) && p.slot !in plugin.playersNotified
    modifies plugin`playersNotified, plugin`actions
    ensures plugin.Valid()
    ensures plugin.playersNotified == old(plugin.playersNotified)[p.slot := true]
    ensures plugin.actions == old(plugin.actions) + [Chat(p.slot, NoticeFor(plugin.config, now))]
  {
    var joined := plugin.OnClientConnected(p.slot, p);
    assert plugin.playersNotified == old(plugin.playersNotified)[p.slot := false];
    assert !plugin.playersNotified[p.slot];
    var spawned := plugin.OnPlayerSpawn(p, now);
  }

  /**
   * A player joins a new map and spawns twice: the first spawn sends the
   * notice and the second sends nothing.
   */
  method SpawnNotifiesOnce(p: Player, now: real, mapName: string) returns (log: seq<Action>, notified: map<int, bool>)
    requires IsCurrent(p) && SpawnNotifies(p) && ValidNow(now)
    ensures log == [Chat(p.slot, NoticeFor(Default, now))]
    ensures notified == map[p.slot := true]
  {
    var plugin := new AutoRestart();
    plugin.OnMapStart(mapName);
    JoinAndSpawn(plugin, p, now);
    assert plugin.playersNotified[p.slot];
    var second := plugin.OnPlayerSpawn(p, now);
    log, notified := plugin.actions, plugin.playersNotified;
  }

  /**
   * A player who leaves and joins again on the same map loses the table
   * entry on leaving and gets a fresh, un-notified one on joining, so the
   * next spawn warns the player a second time.
   */
  method RejoinIsWarnedAgain(p: Player, now: real, mapName: string) returns (log: seq<Action>, notified: map<int, bool>)
    requires IsCurrent(p) && SpawnNotifies(p) && ValidNow(now)
    ensures log == [Chat(p.slot, NoticeFor(Default, now)), Chat(p.slot, NoticeFor(Default, now))]
    ensures notified == map[p.slot := true]
  {
    var plugin := new AutoRestart();
    plugin.OnMapStart(mapName);
    JoinAndSpawn(plugin, p, now);
    plugin.OnClientDisconnect(p.slot);
    assert plugin.playersNotified == map[];
    JoinAndSpawn(plugin, p, now);
    log, notified := plugin.actions, plugin.playersNotified;
  }

  /**
   * On an empty server the restart timer fires and commits the shutdown;
   * the map then ends, which quits at once under the defaults. When the
   * committed timer fires later, its quit is issued again: nothing checks
   * or clears the pending flag.
   */
  method MapEndForcesPendingRestart(now: real) returns (log: seq<Action>, pending: bool)
    requires ValidNow(now)
    ensures var delay := CalculateTimeUntilRestart(Default.restartTime, now);
      log == [ArmRestartTimer(0, delay), SchedulePrepareShutdown(delay), Quit, ScheduleShutdown(1.0), Quit]
    ensures pending
  {
    DefaultRestartTimeIsValid(now);
    var delay := CalculateTimeUntilRestart(Default.restartTime, now);
    var plugin := new AutoRestart();
    plugin.SetupRestartTimer(now);
    assert plugin.actions == [ArmRestartTimer(0, delay)];
    assert CurrentPlayers([]) == [] && NotifyAll([], NoticeFor(Default, now)) == [];
    assert CheckPlayers(Default, 0, None, 64);
    plugin.ManageServerRestart([], None, 64, now);
    assert plugin.actions == [ArmRestartTimer(0, delay), SchedulePrepareShutdown(delay)];
    plugin.OnMapEnd();
    assert Kicks([]) == [];
    plugin.PrepareServerShutdown([]);
    plugin.ShutdownServer();
    log, pending := plugin.actions, plugin.restartRequired;
  }

  /**
   * A reload with an unparsable restart time leaves the armed timer in
   * place; a later reload with a valid, different time replaces it.
   */
  method InvalidRestartTimeKeepsTimer(bad: PluginConfig, good: PluginConfig, now: real)
    returns (log: seq<Action>, timerAfterBad: Option<TimerHandle>, timerAfterGood: Option<TimerHandle>)
    requires ValidNow(now)
    requires ParseRestartTime(bad.restartTime).None? && ParseRestartTime(good.restartTime).Some?
    ensures timerAfterBad == Some(0) && timerAfterGood == Some(1)
    ensures log == [ArmRestartTimer(0, CalculateTimeUntilRestart(Default.restartTime, now)),
                    KillTimer(0),
                    ArmRestartTimer(1, CalculateTimeUntilRestart(good.restartTime, now))]
  {
    DefaultRestartTimeIsValid(now);
    var plugin := new AutoRestart();
    plugin.SetupRestartTimer(now);
    assert plugin.currentTimer == Some(0) && plugin.nextHandle == 1;
    assert plugin.actions == [ArmRestartTimer(0, CalculateTimeUntilRestart(Default.restartTime, now))];
    assert bad.restartTime != Default.restartTime;
    plugin.OnConfigParsed(bad, now);
    timerAfterBad := plugin.currentTimer;
    assert good.restartTime != bad.restartTime;
    plugin.OnConfigParsed(good, now);
    timerAfterGood := plugin.currentTimer;
    log := plugin.actions;
  }

  /**
   * With 40 current players in 64 slots the gate stays closed under the
   * defaults: the fired timer notifies nobody and commits nothing.
   */
  method CrowdedServerSkipsRestart(all: seq<Player>, now: real) returns (log: seq<Action>, pending: bool)
    requires ValidNow(now) && |CurrentPlayers(all)| == 40
    ensures log == [ArmRestartTimer(0, CalculateTimeUntilRestart(Default.restartTime, now))]
    ensures !pending
  {
    DefaultRestartTimeIsValid(now);
    GateExamples();
    var plugin := new AutoRestart();
    plugin.SetupRestartTimer(now);
    assert plugin.actions == [ArmRestartTimer(0, CalculateTimeUntilRestart(Default.restartTime, now))];
    assert !CheckPlayers(Default, 40, Some(64), 128);
    plugin.ManageServerRestart(all, Some(64), 128, now);
    log, pending := plugin.actions, plugin.restartRequired;
  }
}
