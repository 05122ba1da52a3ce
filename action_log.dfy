/**
 * The host side effects of the engine, recorded in order: timers armed
 * and killed, chat lines, kicks, deferred calls and the quit command. The
 * functions here say what one engine step appends to the record.
 */
module ActionLog {
  import opened Wrappers
  import opened Notification
  import opened Players

  /** Identity of one restart timer object. */
  type TimerHandle = nat

  datatype Action =
    | ArmRestartTimer(handle: TimerHandle, delay: real)   // new Timer(delay, ManageServerRestart on the next frame)
    | KillTimer(handle: TimerHandle)                      // Timer.Kill
    | Chat(slot: int, notice: Notice)                     // PrintToChat to the player in that slot
    | SchedulePrepareShutdown(delay: real)                // AddTimer(delay, PrepareServerShutdown)
    | Kick(userId: int)                                   // "kickid <userId> ..."
    | ScheduleShutdown(delay: real)                       // AddTimer(delay, ShutdownServer)
    | Quit                                                // "quit"

  /**
   * The kill issued by CancelCurrentTimer for the handle it holds. The
   * ensures spell out both cases so that callers need not unfold the body.
   */
  function KillCurrent(current: Option<TimerHandle>): (r: seq<Action>)
    ensures current.None? ==> r == []
    ensures current.Some? ==> r == [KillTimer(current.value)]
  {
    if current.Some? then [KillTimer(current.value)] else []
  }

  /** One chat line per player, in order, each with the same notice. */
  function NotifyAll(players: seq<Player>, notice: Notice): (r: seq<Action>)
    ensures |r| == |players|
    ensures forall i :: 0 <= i < |r| ==> r[i] == Chat(players[i].slot, notice)
  {
    if players == [] then []
    else NotifyAll(players[..|players| - 1], notice) + [Chat(players[|players| - 1].slot, notice)]
  }

  /** The kick commands for those of `players` that are kickable, in order. */
  function Kicks(players: seq<Player>): (r: seq<Action>)
    ensures |r| <= |players|
    ensures forall i :: 0 <= i < |r| ==> r[i].Kick?
  {
    if players == [] then []
    else
      var last := players[|players| - 1];
      Kicks(players[..|players| - 1]) + if IsKickable(last) then [Kick(last.userId)] else []
  }

  /** The kicks for two lists one after the other are those of each list, in that order. */
  lemma {:induction false} KicksSplit(front: seq<Player>, back: seq<Player>)
    ensures Kicks(front + back) == Kicks(front) + Kicks(back)
  {
    if back == [] {
      assert front + back == front;
    } else {
      var init := back[..|back| - 1];
      var last := back[|back| - 1];
      assert front + back == (front + init) + [last];
      assert (front + back)[..|front + back| - 1] == front + init;
      KicksSplit(front, init);
    }
  }

  /**
   * Each player contributes exactly its own command at its own position:
   * one kick with its user id when it is kickable, nothing otherwise.
   */
  lemma KicksInOrder(front: seq<Player>, p: Player, back: seq<Player>)
    ensures Kicks(front + [p] + back) ==
      Kicks(front) + (if IsKickable(p) then [Kick(p.userId)] else []) + Kicks(back)
  {
    KicksSplit(front + [p], back);
    KicksSplit(front, [p]);
    assert [p][..0] == [];
  }

  /** Kicks issues a kick for every kickable player, and for nobody else. */
  lemma {:induction false} KicksExactly(players: seq<Player>, a: Action)
    ensures a in Kicks(players) <==> a.Kick? && exists p :: p in players && IsKickable(p) && a.userId == p.userId
  {
    if players != [] {
      var last := players[|players| - 1];
      var front := players[..|players| - 1];
      assert players == front + [last];
      KicksExactly(front, a);
      if a.Kick? && exists p :: p in players && IsKickable(p) && a.userId == p.userId {
        var p :| p in players && IsKickable(p) && a.userId == p.userId;
        if p != last {
          assert p in front;
        }
      }
    }
  }

  /** The slots of a list of players. */
  function SlotsOf(players: seq<Player>): set<int> {
    set p | p in players :: p.slot
  }

  /** The notified map after setting the entry of each player's slot to true. */
  function MarkNotified(notified: map<int, bool>, players: seq<Player>): (r: map<int, bool>)
    ensures r.Keys == notified.Keys + SlotsOf(players)
    ensures forall k :: k in r ==> r[k] == (k in SlotsOf(players) || notified[k])
  {
    if players == [] then notified
    else
      var last := players[|players| - 1];
      var front := players[..|players| - 1];
      assert players == front + [last];
      assert SlotsOf(players) == SlotsOf(front) + {last.slot};
      MarkNotified(notified, front)[last.slot := true]
  }

  /** Extending the players by one entry adds its chat line and marks its slot. */
  lemma NotifyStep(notified: map<int, bool>, players: seq<Player>, notice: Notice, i: nat)
    requires i < |players|
    ensures NotifyAll(players[..i + 1], notice) == NotifyAll(players[..i], notice) + [Chat(players[i].slot, notice)]
    ensures MarkNotified(notified, players[..i + 1]) == MarkNotified(notified, players[..i])[players[i].slot := true]
  {
    assert players[..i + 1][..i] == players[..i];
  }

  /** The restart timers that have been armed and not killed since. */
  function LiveTimers(log: seq<Action>): set<TimerHandle> {
    if log == [] then {}
    else
      var before := LiveTimers(log[..|log| - 1]);
      var a := log[|log| - 1];
      if a.ArmRestartTimer? then before + {a.handle}
      else if a.KillTimer? then before - {a.handle}
      else before
  }

  /** An action that neither arms nor kills a restart timer. */
  predicate LeavesTimers(a: Action) {
    !a.ArmRestartTimer? && !a.KillTimer?
  }

  /** A shutdown has been committed to: PrepareServerShutdown was scheduled. */
  function Committed(log: seq<Action>): bool {
    if log == [] then false
    else Committed(log[..|log| - 1]) || log[|log| - 1].SchedulePrepareShutdown?
  }

  /** The one-second timer that calls ShutdownServer has been added. */
  function ShutdownScheduled(log: seq<Action>): bool {
    if log == [] then false
    else ShutdownScheduled(log[..|log| - 1]) || log[|log| - 1].ScheduleShutdown?
  }

  /** Every quit command comes after some scheduled PrepareServerShutdown. */
  function QuitsAfterCommit(log: seq<Action>): bool {
    if log == [] then true
    else
      var front := log[..|log| - 1];
      QuitsAfterCommit(front) && (log[|log| - 1].Quit? ==> Committed(front))
  }

  /** Committed and ShutdownScheduled say that some entry is of that kind. */
  lemma {:induction false} CommittedMeaning(log: seq<Action>)
    ensures Committed(log) <==> exists i :: 0 <= i < |log| && log[i].SchedulePrepareShutdown?
    ensures ShutdownScheduled(log) <==> exists i :: 0 <= i < |log| && log[i].ScheduleShutdown?
  {
    if log != [] {
      var front := log[..|log| - 1];
      CommittedMeaning(front);
      if Committed(front) {
        var i :| 0 <= i < |front| && front[i].SchedulePrepareShutdown?;
        assert log[i] == front[i];
      }
      if ShutdownScheduled(front) {
        var i :| 0 <= i < |front| && front[i].ScheduleShutdown?;
        assert log[i] == front[i];
      }
      if exists i :: 0 <= i < |log| && log[i].SchedulePrepareShutdown? {
        var i :| 0 <= i < |log| && log[i].SchedulePrepareShutdown?;
        if i < |front| {
          assert front[i] == log[i];
        }
      }
      if exists i :: 0 <= i < |log| && log[i].ScheduleShutdown? {
        var i :| 0 <= i < |log| && log[i].ScheduleShutdown?;
        if i < |front| {
          assert front[i] == log[i];
        }
      }
    }
  }

  /** Each quit in a log that keeps QuitsAfterCommit has a committed prefix before it. */
  lemma {:induction false} QuitsAfterCommitMeaning(log: seq<Action>, i: nat)
    requires QuitsAfterCommit(log)
    requires i < |log| && log[i].Quit?
    ensures Committed(log[..i])
  {
    var front := log[..|log| - 1];
    if i < |front| {
      assert front[i] == log[i];
      assert front[..i] == log[..i];
      QuitsAfterCommitMeaning(front, i);
    } else {
      assert log[..i] == front;
    }
  }

  lemma AppendOne(log: seq<Action>, a: Action)
    ensures Committed(log + [a]) == (Committed(log) || a.SchedulePrepareShutdown?)
    ensures ShutdownScheduled(log + [a]) == (ShutdownScheduled(log) || a.ScheduleShutdown?)
    ensures QuitsAfterCommit(log + [a]) == (QuitsAfterCommit(log) && (a.Quit? ==> Committed(log)))
    ensures a.ArmRestartTimer? ==> LiveTimers(log + [a]) == LiveTimers(log) + {a.handle}
    ensures a.KillTimer? ==> LiveTimers(log + [a]) == LiveTimers(log) - {a.handle}
    ensures LeavesTimers(a) ==> LiveTimers(log + [a]) == LiveTimers(log)
  {
    assert (log + [a])[..|log|] == log;
  }

  /**
   * Appending actions that neither touch restart timers nor quit keeps the
   * live timers and every quit after a commitment, and commits or schedules
   * the shutdown exactly when one of the parts does.
   */
  lemma {:induction false} QuietAppend(log: seq<Action>, extra: seq<Action>)
    requires forall i :: 0 <= i < |extra| ==> LeavesTimers(extra[i]) && !extra[i].Quit?
    ensures LiveTimers(log + extra) == LiveTimers(log)
    ensures Committed(log + extra) == (Committed(log) || Committed(extra))
    ensures ShutdownScheduled(log + extra) == (ShutdownScheduled(log) || ShutdownScheduled(extra))
    ensures QuitsAfterCommit(log + extra) == QuitsAfterCommit(log)
  {
    if extra == [] {
      assert log + extra == log;
    } else {
      var front := extra[..|extra| - 1];
      var last := extra[|extra| - 1];
      assert log + extra == (log + front) + [last];
      QuietAppend(log, front);
      AppendOne(log + front, last);
      AppendOne(front, last);
      assert front + [last] == extra;
    }
  }
}
