/**
 * The plugin's restart engine (AutoRestart.cs). One object holds the
 * configuration, the per-map notified table, the loading and pending-restart
 * flags, the countdown computed at setup and the current restart timer.
 * Every host callback is a method; what the plugin asks the host to do is
 * appended to `actions`. Deferred calls (timers, next frame) are not run by
 * the model: their firing is the host calling the corresponding method.
 */
module AutoRestartPlugin {
  import opened Wrappers
  import opened Configuration
  import opened RestartTime
  import opened Notification
  import opened Players
  import opened ActionLog

  /** The host's answer to a game event. */
  datatype HookResult = Continue | Changed | Handled | Stop

  /** What OnClientConnected did with the slot. */
  datatype ConnectOutcome =
    | Ignored          // invalid player, bot or HLTV client
    | Added            // slot entered as not yet notified
    | DuplicateSlot    // the slot was already present: the dictionary insert throws

  function HandleSet(h: Option<TimerHandle>): set<TimerHandle> {
    if h.Some? then {h.value} else {}
  }

  /** Players that OnPlayerSpawn may notify: valid humans on a playing team. */
  predicate SpawnNotifies(p: Player) {
    p.isValid && !p.isBot && p.teamNum > Spectator
  }

  /**
   * The loop of ManageServerRestart: for each current player in turn, one
   * chat line with the notice, and the player's slot marked as notified.
   */
  method NotifyEach(players: seq<Player>, notice: Notice, notified0: map<int, bool>)
    returns (chats: seq<Action>, notified: map<int, bool>)
    ensures chats == NotifyAll(players, notice)
    ensures notified == MarkNotified(notified0, players)
  {
    chats, notified := [], notified0;
    var i := 0;
    while i < |players|
      invariant 0 <= i <= |players|
      invariant chats == NotifyAll(players[..i], notice)
      invariant notified == MarkNotified(notified0, players[..i])
    {
      NotifyStep(notified0, players, notice, i);
      chats := chats + [Chat(players[i].slot, notice)];
      notified := notified[players[i].slot := true];
      i := i + 1;
    }
    assert players[..|players|] == players;
  }

  /**
   * The loop of PrepareServerShutdown: a kick command for each player that
   * is connected, connecting or reconnecting, in the host's order.
   */
  method KickCommands(players: seq<Player>) returns (kicks: seq<Action>)
    ensures kicks == Kicks(players)
  {
    kicks := [];
    var i := 0;
    while i < |players|
      invariant 0 <= i <= |players|
      invariant kicks == Kicks(players[..i])
    {
      assert players[..i + 1][..i] == players[..i];
      match players[i].connected {
        case Connected | Connecting | Reconnecting =>
          kicks := kicks + [Kick(players[i].userId)];
        case _ =>
      }
      i := i + 1;
    }
    assert players[..|players|] == players;
  }

  class AutoRestart {
    var config: PluginConfig
    var playersNotified: map<int, bool>      // slot -> notified during this map
    var isServerLoading: bool
    var restartRequired: bool
    var timeUntilRestart: real
    var currentTimer: Option<TimerHandle>
    var nextHandle: TimerHandle              // identity of the next timer object created
    var actions: seq<Action>                 // host side effects, oldest first

    /**
     * Exactly the current handle is armed and not killed; a pending restart,
     * a scheduled shutdown and every quit come after a committed shutdown.
     */
    ghost predicate Valid()
      reads this
    {
      && LiveTimers(actions) == HandleSet(currentTimer)
      && (currentTimer.Some? ==> currentTimer.value < nextHandle)
      && (restartRequired ==> Committed(actions))
      && (ShutdownScheduled(actions) ==> Committed(actions))
      && QuitsAfterCommit(actions)
    }

    /** A freshly loaded plugin with the default configuration and no timer. */
    constructor ()
      ensures Valid()
      ensures config == Default && playersNotified == map[]
      ensures !isServerLoading && !restartRequired
      ensures timeUntilRestart == CalculationFailed && currentTimer == None && nextHandle == 0 && actions == []
    {
      config := Default;
      playersNotified := map[];
      isServerLoading := false;
      restartRequired := false;
      timeUntilRestart := CalculationFailed;
      currentTimer := None;
      nextHandle := 0;
      actions := [];
    }

    /** Appends actions that neither touch timers nor quit, keeping Valid. */
    method Emit(extra: seq<Action>)
      requires Valid()
      requires forall i :: 0 <= i < |extra| ==> LeavesTimers(extra[i]) && !extra[i].Quit?
      requires (exists i :: 0 <= i < |extra| && extra[i].ScheduleShutdown?) ==> Committed(actions)
      modifies this`actions
      ensures Valid()
      ensures actions == old(actions) + extra
      ensures Committed(actions) <==>
        Committed(old(actions)) || exists i :: 0 <= i < |extra| && extra[i].SchedulePrepareShutdown?
    {
      CommittedMeaning(extra);
      QuietAppend(actions, extra);
      actions := actions + extra;
    }

    /** Kills the current restart timer, if any, and forgets it. */
    method CancelCurrentTimer()
      requires Valid()
      modifies this`currentTimer, this`actions
      ensures Valid()
      ensures currentTimer == None
      ensures actions == old(actions) + KillCurrent(old(currentTimer))
    {
      if currentTimer == None {
        return;
      }
      var kill := KillTimer(currentTimer.value);
      AppendOne(actions, kill);
      actions := actions + [kill];
      currentTimer := None;
    }

    /**
     * Computes the countdown; when it fails, returns with the old timer left
     * in place; otherwise replaces the old timer by a new one for that delay.
     */
    method SetupRestartTimer(now: real)
      requires Valid() && ValidNow(now)
      modifies this`timeUntilRestart, this`currentTimer, this`nextHandle, this`actions
      ensures Valid()
      ensures timeUntilRestart == CalculateTimeUntilRestart(config.restartTime, now)
      ensures timeUntilRestart < 0.0 ==>
        currentTimer == old(currentTimer) && nextHandle == old(nextHandle) && actions == old(actions)
      ensures timeUntilRestart >= 0.0 ==>
        && currentTimer == Some(old(nextHandle)) && nextHandle == old(nextHandle) + 1
        && old(nextHandle) !in old(LiveTimers(actions))
        && LiveTimers(actions) == {old(nextHandle)}
        && actions == old(actions) + KillCurrent(old(currentTimer))
                      + [ArmRestartTimer(old(nextHandle), timeUntilRestart)]
    {
      timeUntilRestart := CalculateTimeUntilRestart(config.restartTime, now);
      if timeUntilRestart < 0.0 {
        return;
      }
      assert nextHandle !in LiveTimers(actions);
      CancelCurrentTimer();
      assert LiveTimers(actions) == {};
      var arm := ArmRestartTimer(nextHandle, timeUntilRestart);
      AppendOne(actions, arm);
      actions := actions + [arm];
      currentTimer := Some(nextHandle);
      nextHandle := nextHandle + 1;
    }

    /**
     * Takes the reloaded configuration; the timer is set up again only when
     * the restart time string changed. A lower version number is only logged.
     */
    method OnConfigParsed(newConfig: PluginConfig, now: real)
      requires Valid() && ValidNow(now)
      modifies this`config, this`timeUntilRestart, this`currentTimer, this`nextHandle, this`actions
      ensures Valid()
      ensures config == newConfig
      ensures newConfig.restartTime == old(config.restartTime) ==>
        && timeUntilRestart == old(timeUntilRestart) && currentTimer == old(currentTimer)
        && nextHandle == old(nextHandle) && actions == old(actions)
      ensures newConfig.restartTime != old(config.restartTime) ==>
        && timeUntilRestart == CalculateTimeUntilRestart(newConfig.restartTime, now)
        && (timeUntilRestart < 0.0 ==>
              currentTimer == old(currentTimer) && nextHandle == old(nextHandle) && actions == old(actions))
        && (timeUntilRestart >= 0.0 ==>
              && currentTimer == Some(old(nextHandle)) && nextHandle == old(nextHandle) + 1
              && actions == old(actions) + KillCurrent(old(currentTimer))
                            + [ArmRestartTimer(old(nextHandle), timeUntilRestart)])
    {
      if newConfig.restartTime != config.restartTime {
        config := newConfig;
        SetupRestartTimer(now);
      } else {
        config := newConfig;
      }
    }

    /** A new map: nobody has been notified yet and loading is over. */
    method OnMapStart(mapName: string)
      requires Valid()
      modifies this`playersNotified, this`isServerLoading
      ensures Valid()
      ensures playersNotified == map[] && !isServerLoading
    {
      playersNotified := map[];
      isServerLoading := false;
    }

    /**
     * The map ends: a pending restart quits at once when the configuration
     * asks for it, and from then on the server counts as loading.
     */
    method OnMapEnd()
      requires Valid()
      modifies this`isServerLoading, this`actions
      ensures Valid()
      ensures isServerLoading
      ensures actions == old(actions) +
        if old(restartRequired) && config.shutdownOnMapChangeIfPendingUpdate then [Quit] else []
    {
      if restartRequired && config.shutdownOnMapChangeIfPendingUpdate {
        ShutdownServer();
      }
      isServerLoading := true;
    }

    /** A client connects: human, non-HLTV players get an un-notified entry. */
    method OnClientConnected(playerSlot: int, player: Player) returns (outcome: ConnectOutcome)
      requires Valid()
      modifies this`playersNotified
      ensures Valid()
      ensures !IsCurrent(player) ==> outcome == Ignored && playersNotified == old(playersNotified)
      ensures IsCurrent(player) && playerSlot in old(playersNotified) ==>
        outcome == DuplicateSlot && playersNotified == old(playersNotified)
      ensures IsCurrent(player) && playerSlot !in old(playersNotified) ==>
        outcome == Added && playersNotified == old(playersNotified)[playerSlot := false]
    {
      if !player.isValid || player.isBot || player.isHLTV {
        return Ignored;
      }
      if playerSlot in playersNotified {
        return DuplicateSlot;
      }
      playersNotified := playersNotified[playerSlot := false];
      outcome := Added;
    }

    /** A client leaves: its entry, and only its entry, is dropped. */
    method OnClientDisconnect(playerSlot: int)
      requires Valid()
      modifies this`playersNotified
      ensures Valid()
      ensures playersNotified == old(playersNotified) - {playerSlot}
    {
      playersNotified := playersNotified - {playerSlot};
    }

    /**
     * A player spawns: an eligible player not yet notified on this map is
     * marked notified and sent the notice; the event always continues.
     */
    method OnPlayerSpawn(player: Player, now: real) returns (result: HookResult)
      requires Valid() && ValidNow(now)
      modifies this`playersNotified, this`actions
      ensures Valid()
      ensures result == Continue
      ensures var already := player.slot in old(playersNotified) && old(playersNotified)[player.slot];
        if SpawnNotifies(player) && !already then
          && playersNotified == old(playersNotified)[player.slot := true]
          && actions == old(actions) + [Chat(player.slot, NoticeFor(config, now))]
        else
          playersNotified == old(playersNotified) && actions == old(actions)
    {
      if !player.isValid || player.isBot || player.teamNum <= Spectator {
        return Continue;
      }
      if player.slot in playersNotified && playersNotified[player.slot] {
        return Continue;
      }
      playersNotified := playersNotified[player.slot := true];
      NotifyPlayerAboutRestart(player, now);
      result := Continue;
    }

    /** Sends one player the restart notice for the current moment. */
    method NotifyPlayerAboutRestart(player: Player, now: real)
      requires Valid() && ValidNow(now)
      modifies this`actions
      ensures Valid()
      ensures actions == old(actions) + [Chat(player.slot, NoticeFor(config, now))]
    {
      var notice := NoticeFor(config, now);
      Emit([Chat(player.slot, notice)]);
    }

    /** Schedules PrepareServerShutdown after the stored countdown and marks the restart pending. */
    method CommitShutdown()
      requires Valid() && timeUntilRestart >= 0.0
      modifies this`restartRequired, this`actions
      ensures Valid()
      ensures restartRequired
      ensures actions == old(actions) + [SchedulePrepareShutdown(timeUntilRestart)]
    {
      Emit([SchedulePrepareShutdown(timeUntilRestart)]);
      restartRequired := true;
    }

    /**
     * The restart timer fired. Unless the map is loading or the population
     * gate is closed (then nothing happens at all), every current player is
     * notified and marked, and the shutdown is scheduled after the countdown
     * stored at setup, recomputed once if it was negative.
     */
    method ManageServerRestart(all: seq<Player>, visibleMaxPlayers: Option<int>, serverMaxPlayers: int, now: real)
      requires Valid() && ValidNow(now)
      requires !isServerLoading ==> EffectiveSlots(visibleMaxPlayers, serverMaxPlayers) > 0
      modifies this`playersNotified, this`timeUntilRestart, this`restartRequired, this`actions
      ensures Valid()
      ensures var players := CurrentPlayers(all);
        if old(isServerLoading) || !CheckPlayers(config, |players|, visibleMaxPlayers, serverMaxPlayers) then
          && playersNotified == old(playersNotified) && timeUntilRestart == old(timeUntilRestart)
          && restartRequired == old(restartRequired) && actions == old(actions)
        else
          var delay := if old(timeUntilRestart) >= 0.0 then old(timeUntilRestart)
                       else CalculateTimeUntilRestart(config.restartTime, now);
          && playersNotified == MarkNotified(old(playersNotified), players)
          && timeUntilRestart == delay
          && restartRequired == (old(restartRequired) || delay >= 0.0)
          && actions == old(actions) + NotifyAll(players, NoticeFor(config, now))
                        + if delay >= 0.0 then [SchedulePrepareShutdown(delay)] else []
    {
      var players := CurrentPlayers(all);
      if isServerLoading || !CheckPlayers(config, |players|, visibleMaxPlayers, serverMaxPlayers) {
        return;
      }
      var chats, notified := NotifyEach(players, NoticeFor(config, now), playersNotified);
      Emit(chats);
      playersNotified := notified;
      if timeUntilRestart >= 0.0 {
        CommitShutdown();
      } else {
        timeUntilRestart := CalculateTimeUntilRestart(config.restartTime, now);
        if !(timeUntilRestart >= 0.0) {
          return;
        }
        CommitShutdown();
      }
    }

    /**
     * The committed shutdown timer fired: every current player that is
     * connected, connecting or reconnecting is kicked, then the quit is
     * scheduled one second later.
     */
    method PrepareServerShutdown(all: seq<Player>)
      requires Valid() && Committed(actions)
      modifies this`actions
      ensures Valid()
      ensures actions == old(actions) + Kicks(CurrentPlayers(all)) + [ScheduleShutdown(1.0)]
    {
      var kicks := KickCommands(CurrentPlayers(all));
      Emit(kicks + [ScheduleShutdown(1.0)]);
    }

    /**
     * Issues the quit command. It reads no flag: neither the pending
     * restart nor the loading state is checked or cleared. Both callers, the
     * one-second timer and OnMapEnd, run only after a committed shutdown.
     */
    method ShutdownServer()
      requires Valid() && Committed(actions)
      modifies this`actions
      ensures Valid()
      ensures actions == old(actions) + [Quit]
    {
      AppendOne(actions, Quit);
      actions := actions + [Quit];
    }
  }
}
