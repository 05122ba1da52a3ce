/**
 * Player records as the engine sees them, the current-player filter
 * (GetCurrentPlayers) and the population gate (CheckPlayers).
 */
module Players {
  import opened Wrappers
  import opened Configuration

  /** PlayerConnectedState of the host. */
  datatype ConnectedState =
    | NeverConnected | Connected | Connecting | Reconnecting
    | Disconnecting | Disconnected | Reserved

  /** TeamNum value of the spectator team; lower values are "no team". */
  const Spectator: int := 1

  /** The fields of a player controller that the engine reads. */
  datatype Player = Player(
    slot: int,
    userId: int,
    isValid: bool,
    isBot: bool,
    isHLTV: bool,
    teamNum: int,
    connected: ConnectedState)

  /** A valid human player who is not the broadcast (HLTV) client. */
  predicate IsCurrent(p: Player) {
    p.isValid && !p.isBot && !p.isHLTV
  }

  /** The players that are kicked before shutdown: connected, connecting or reconnecting. */
  predicate IsKickable(p: Player) {
    p.connected == Connected || p.connected == Connecting || p.connected == Reconnecting
  }

  /** GetCurrentPlayers: the host's player list restricted to current players, in order. */
  function CurrentPlayers(all: seq<Player>): (r: seq<Player>)
    ensures |r| <= |all|
    ensures forall i :: 0 <= i < |r| ==> IsCurrent(r[i])
  {
    if all == [] then []
    else
      var last := all[|all| - 1];
      CurrentPlayers(all[..|all| - 1]) + if IsCurrent(last) then [last] else []
  }

  /** Every current player of the host's list is kept as often as it occurs; no other player is. */
  lemma {:induction false} CurrentPlayersCounts(all: seq<Player>, p: Player)
    ensures multiset(CurrentPlayers(all))[p] == if IsCurrent(p) then multiset(all)[p] else 0
  {
    if all != [] {
      var last := all[|all| - 1];
      assert all == all[..|all| - 1] + [last];
      CurrentPlayersCounts(all[..|all| - 1], p);
    }
  }

  /** Filtering two lists one after the other gives the two filtered lists in that order. */
  lemma {:induction false} CurrentPlayersSplit(front: seq<Player>, back: seq<Player>)
    ensures CurrentPlayers(front + back) == CurrentPlayers(front) + CurrentPlayers(back)
  {
    if back == [] {
      assert front + back == front;
    } else {
      var init := back[..|back| - 1];
      var last := back[|back| - 1];
      assert front + back == (front + init) + [last];
      var tail := if IsCurrent(last) then [last] else [];
      assert (front + back)[..|front + back| - 1] == front + init;
      assert CurrentPlayers(front + back) == CurrentPlayers(front + init) + tail;
      assert CurrentPlayers(back) == CurrentPlayers(init) + tail;
      CurrentPlayersSplit(front, init);
    }
  }

  /** Each player is kept at its own position when it is current, and dropped otherwise. */
  lemma CurrentPlayersInOrder(front: seq<Player>, p: Player, back: seq<Player>)
    ensures CurrentPlayers(front + [p] + back) ==
      CurrentPlayers(front) + (if IsCurrent(p) then [p] else []) + CurrentPlayers(back)
  {
    CurrentPlayersSplit(front + [p], back);
    CurrentPlayersSplit(front, [p]);
    assert [p][..0] == [];
  }

  /**
   * The slot count the gate divides by: sv_visiblemaxplayers when the
   * setting exists and is not -1, otherwise the server's maximum.
   */
  function EffectiveSlots(visibleMaxPlayers: Option<int>, serverMaxPlayers: int): int {
    match visibleMaxPlayers
    case Some(v) => if v == -1 then serverMaxPlayers else v
    case None => serverMaxPlayers
  }

  /**
   * CheckPlayers: the restart may go ahead when the share of occupied
   * slots is below the configured fraction, or when the player count is
   * at most the instant-shutdown threshold.
   */
  function CheckPlayers(config: PluginConfig, players: nat, visibleMaxPlayers: Option<int>, serverMaxPlayers: int): (open: bool)
    requires EffectiveSlots(visibleMaxPlayers, serverMaxPlayers) > 0
    ensures var slots := EffectiveSlots(visibleMaxPlayers, serverMaxPlayers) as real;
      open <==> players as real < config.minPlayerPercentageShutdownAllowed * slots
                || players <= config.minPlayersInstantShutdown
  {
    var slots := EffectiveSlots(visibleMaxPlayers, serverMaxPlayers);
    var share := players as real / slots as real;
    assert share * slots as real == players as real;
    share < config.minPlayerPercentageShutdownAllowed || config.minPlayersInstantShutdown >= players
  }

  /** Fewer players never close a gate that is open. */
  lemma GateMonotone(config: PluginConfig, fewer: nat, more: nat, visibleMaxPlayers: Option<int>, serverMaxPlayers: int)
    requires EffectiveSlots(visibleMaxPlayers, serverMaxPlayers) > 0
    requires fewer <= more
    requires CheckPlayers(config, more, visibleMaxPlayers, serverMaxPlayers)
    ensures CheckPlayers(config, fewer, visibleMaxPlayers, serverMaxPlayers)
  {
  }

  /** With 64 slots and the default thresholds: one player opens the gate, forty do not. */
  lemma GateExamples()
    ensures CheckPlayers(Default, 1, Some(64), 128)
    ensures !CheckPlayers(Default, 40, Some(64), 128)
    ensures CheckPlayers(Default, 38, None, 64)
  {
  }
}
