# AutoRestart restart engine, modelled in Dafny

AutoRestart is a Counter-Strike 2 server plugin. It aims to restart the
server once a day at a configured wall-clock time. It arms a timer for that
time. When the timer fires it checks a population gate and the map-loading
state, warns every player in chat and marks them notified, and commits a
shutdown. That shutdown kicks the connected players and quits the process
one second later. It runs after a further delay, and a closed gate skips the
restart without retrying. The bullets below say when the code actually
restarts. When `ShutdownOnMapChangeIfPendingUpdate` is set, a pending
restart also forces a quit at the next map end. A player is warned on their
first spawn after joining or after the map starts; a player who leaves and
rejoins is warned again.

The model is one object, `AutoRestartPlugin.AutoRestart`, whose fields are
those of the plugin:
- the configuration;
- the slot → notified table;
- the loading flag;
- the pending-restart flag;
- the countdown stored at setup;
- the current restart-timer handle.

It has two extra fields:
- a counter that names each new timer object;
- `actions`, the ordered record of what the plugin asked the host to do: arm or kill a timer, send a chat line, schedule a deferred call, kick a player, quit.

Each host callback is a method that updates these fields. A timer firing is
the host calling the method the timer was created for. The class invariant
`Valid()` states two things:
- The restart timers armed and not yet killed in `actions` are exactly the current handle.
- A pending restart, a scheduled shutdown and every quit all come after a committed shutdown, i.e. after `PrepareServerShutdown` was scheduled.

The pure parts are modules of functions and lemmas:
- `RestartTime`: the restart-time parser and the countdown to the next daily occurrence.
- `Notification`: the countdown text (unit, rounded number, plural suffix) and the notice a player receives.
- `Players`: the current-player filter and the population gate.
- `ActionLog`: what one step appends to the record.
- `Configuration` and `Defaults`: the configuration record and what its defaults imply.
- `Scenarios`: short event sequences run against a fresh object.

Time is passed in as `now`, the seconds since local midnight, a real in
[0, 86400).

Behaviour of the code that the model keeps:
- The countdown lies in (0, 86400]. The comparison at AutoRestart.cs:123 is `>=`, so at exactly the target time the restart moves to tomorrow (`RestartTime.AtOrPastTargetRollsOver`).
- When the restart time does not parse, `SetupRestartTimer` returns at AutoRestart.cs:134-138 before it calls `CancelCurrentTimer`. A timer armed earlier therefore stays armed (`Scenarios.InvalidRestartTimeKeepsTimer`).
- When the map is loading or the gate is closed, `ManageServerRestart` returns at AutoRestart.cs:223 having done nothing. No retry is scheduled (`Scenarios.CrowdedServerSkipsRestart`).
- `ShutdownServer` (AutoRestart.cs:269-273) reads no flag, and no code clears the pending-restart flag. If the process is still running after a quit forced at map end (AutoRestart.cs:93), the committed timers issue a second quit (`Scenarios.MapEndForcesPendingRestart`).
- The `PrepareServerShutdown` timer is added at AutoRestart.cs:235 with the countdown stored at setup. At AutoRestart.cs:245, which is reached only when that stored value is negative, it uses the countdown recomputed when the timer fires (AutoRestart.cs:241). The kicks therefore come that many seconds after the restart timer fired, and the quit one second later (AutoRestart.cs:266).
- `NotifyPlayersBeforeRestart` (PluginConfig.cs:15-16) is read nowhere (`Defaults.NotifySwitchIsInert`).
- `OnConfigParsed` sets the timer up again only when the restart-time string changed (AutoRestart.cs:67-72). A lower config version only produces a log warning (AutoRestart.cs:62-65).
- The plural suffix at AutoRestart.cs:206 tests the unrounded value, so 90 seconds reads "1 minutes" (`Notification.PluralWithAmountOne`).

## Model

| member | source | states |
|---|---|---|
| RestartTime.ParseRestartTime | AutoRestart.cs:112-118 | an accepted string has the H:m shape with the colon at index 1 or 2; its hours and minutes are the values of the one- or two-digit fields around that colon, below 24 and 60 |
| RestartTime.SpellingParses | AutoRestart.cs:114 | every spelling of a valid time, each field padded to two digits or not ("3:5", "03:5", "3:05", "03:05"), parses back to that time |
| RestartTime.ParsedIsSpelling | AutoRestart.cs:114 | every accepted string is one of those spellings of the time it yields, so the parser accepts exactly these strings |
| RestartTime.ParseFormatRoundTrip | PluginConfig.cs:13 | parsing the canonical "HH:mm" spelling of a valid time gives that time back |
| RestartTime.FormatParseRoundTrip | PluginConfig.cs:13 | a five-character string that parses is the canonical spelling of its value |
| RestartTime.CalculateTimeUntilRestart | AutoRestart.cs:110-129 | -1 exactly when the time does not parse; otherwise a value in (0, 86400] that ends at today's or tomorrow's hh:mm:00 |
| RestartTime.CountdownReachesNextOccurrence | AutoRestart.cs:120-128 | the countdown ends no later than any occurrence of hh:mm:00 after now, so it is the next one |
| RestartTime.AtOrPastTargetRollsOver | AutoRestart.cs:123-126 | the target moves to tomorrow iff now is at or past today's target |
| Notification.SelectCountdownText | AutoRestart.cs:202-207 | minutes iff at least 60 s remain; the shown number is the whole minutes or seconds remaining; plural iff the unrounded value exceeds 1 |
| Notification.PluralWithAmountOne | AutoRestart.cs:206-207 | the number shown is 1 with a plural label iff 1 < s < 2 or 60 < s < 120 |
| Notification.CountdownTextExamples | AutoRestart.cs:202-207 | 59 s, 1 s, 60 s, 90 s and 3600 s give "59 seconds", "1 second", "1 minute", "1 minutes", "60 minutes" |
| Notification.NoticeFor | AutoRestart.cs:189-211 | an error notice iff the time does not parse; otherwise the countdown text of the seconds left and a restart moment within the next day at hh:mm:00 |
| Players.CurrentPlayers | AutoRestart.cs:275-279 | at most as many players as given, every one of them valid, human and not HLTV |
| Players.CurrentPlayersCounts | AutoRestart.cs:275-279 | each current player of the host's list is kept as often as it occurs there; no other player is kept |
| Players.CurrentPlayersSplit | AutoRestart.cs:277-278 | filtering two lists one after the other gives the two filtered lists in that order |
| Players.CurrentPlayersInOrder | AutoRestart.cs:277-278 | each player stays at its own position when it is current and is dropped otherwise |
| Players.CheckPlayers | AutoRestart.cs:160-168 | the gate is open iff players < fraction × slots or players ≤ the instant-shutdown threshold, where slots is sv_visiblemaxplayers unless absent or -1 |
| Players.GateMonotone | AutoRestart.cs:166-167 | fewer players never close an open gate |
| Players.GateExamples | AutoRestart.cs:160-168 | with defaults and 64 slots, 1 player opens the gate, 40 do not, 38 do |
| ActionLog.NotifyAll | AutoRestart.cs:226-230 | one chat line per current player, in order, each carrying the notice |
| ActionLog.Kicks | AutoRestart.cs:254-264 | no more commands than players, every one of them a kick |
| ActionLog.KicksSplit | AutoRestart.cs:254-264 | the kicks for two lists one after the other are those of each list, in that order |
| ActionLog.KicksInOrder | AutoRestart.cs:254-264 | each player contributes exactly one kick with its user id at its own position when connected, connecting or reconnecting, and nothing otherwise |
| ActionLog.KicksExactly | AutoRestart.cs:254-264 | a kick is issued for a user id iff some listed player with that id is connected, connecting or reconnecting |
| ActionLog.MarkNotified | AutoRestart.cs:226-230 | the table gains the players' slots, those map to true, every other entry is unchanged |
| ActionLog.QuitsAfterCommitMeaning | AutoRestart.cs:269-273 | in a record that keeps the invariant, every quit is preceded by a scheduled PrepareServerShutdown |
| ActionLog.CommittedMeaning | AutoRestart.cs:235 | a record is committed iff it contains a scheduled PrepareServerShutdown (and likewise for the one-second shutdown) |
| ActionLog.QuietAppend | AutoRestart.cs:226-230 | appending chats, kicks and scheduled calls keeps the live timers and the quit-after-commit order |
| AutoRestartPlugin.NotifyEach | AutoRestart.cs:226-230 | the foreach over current players yields their chat lines and marks their slots |
| AutoRestartPlugin.KickCommands | AutoRestart.cs:254-264 | the foreach over current players yields the kicks for the connected states |
| AutoRestartPlugin.AutoRestart.constructor | AutoRestart.cs:19-27 | default config, empty table, both flags false, countdown -1, no timer, empty record |
| AutoRestartPlugin.AutoRestart.CancelCurrentTimer | AutoRestart.cs:152-158 | the held handle, if any, is killed; the handle is null afterwards; with no handle nothing happens |
| AutoRestartPlugin.AutoRestart.SetupRestartTimer | AutoRestart.cs:131-150 | the countdown is stored; on failure timer and record are untouched; otherwise the old timer is killed and exactly one fresh one is armed and live |
| AutoRestartPlugin.AutoRestart.OnConfigParsed | AutoRestart.cs:60-78 | the config is always replaced; the timer is set up again iff the restart time string changed |
| AutoRestartPlugin.AutoRestart.OnMapStart | AutoRestart.cs:85-89 | the notified table is emptied and the loading flag cleared |
| AutoRestartPlugin.AutoRestart.OnMapEnd | AutoRestart.cs:91-95 | a quit is issued iff a restart is pending and the config forces shutdown on map change; loading is set afterwards |
| AutoRestartPlugin.AutoRestart.OnClientConnected | AutoRestart.cs:97-103 | bots, HLTV and invalid players are ignored; a new slot is added as not notified; an existing slot is the insert's duplicate-key failure and changes nothing |
| AutoRestartPlugin.AutoRestart.OnClientDisconnect | AutoRestart.cs:105-108 | only that slot's entry is removed |
| AutoRestartPlugin.AutoRestart.OnPlayerSpawn | AutoRestart.cs:170-187 | a valid human on a team above spectator whose slot is not yet true is marked true and sent one notice; otherwise nothing changes; always Continue |
| AutoRestartPlugin.AutoRestart.NotifyPlayerAboutRestart | AutoRestart.cs:189-212 | exactly one chat line to that player with the current notice |
| AutoRestartPlugin.AutoRestart.CommitShutdown | AutoRestart.cs:233-237 | PrepareServerShutdown is scheduled after the stored countdown and the restart becomes pending |
| AutoRestartPlugin.AutoRestart.ManageServerRestart | AutoRestart.cs:215-248 | loading or a closed gate changes nothing; otherwise all current players are notified and marked, then the shutdown is committed after the stored countdown (recomputed once if negative) |
| AutoRestartPlugin.AutoRestart.PrepareServerShutdown | AutoRestart.cs:250-267 | kicks for the current players in connected states, then the quit scheduled after 1 s |
| AutoRestartPlugin.AutoRestart.ShutdownServer | AutoRestart.cs:269-273 | one quit is issued; no flag is read or changed |
| Configuration.Default | PluginConfig.cs:10-25 | version 1, restart time "03:50", notify switch on, instant-shutdown threshold 1, fraction 0.6, shutdown on map change on |
| Defaults.DefaultRestartTimeIsValid | PluginConfig.cs:13 | the default "03:50" parses to 03:50, so a default countdown never fails |
| Defaults.DefaultGateAdmitsOnePlayer | PluginConfig.cs:18-19 | the default instant-shutdown threshold is 1, so 0 or 1 players always pass the gate |
| Defaults.NotifySwitchIsInert | PluginConfig.cs:15-16 | changing NotifyPlayersBeforeRestart changes neither the notice nor the gate |
| Scenarios.SpawnNotifiesOnce | AutoRestart.cs:170-187 | after a map start and a join, two spawns produce exactly one notice and mark the slot true |
| Scenarios.RejoinIsWarnedAgain | AutoRestart.cs:102-107 | leaving and joining again on the same map drops and re-adds the entry as un-notified, so the next spawn sends a second notice |
| Scenarios.MapEndForcesPendingRestart | AutoRestart.cs:91-95 | a committed restart quits at map end, and the committed timers quit a second time |
| Scenarios.InvalidRestartTimeKeepsTimer | AutoRestart.cs:131-141 | an unparsable reload keeps handle 0 armed; a valid one kills it and arms handle 1 |
| Scenarios.CrowdedServerSkipsRestart | AutoRestart.cs:223 | with 40 of 64 slots taken the fired timer emits nothing and leaves the restart not pending |

## Left out

- Plugin lifecycle is not modelled: `Load`, `Unload`, listener and event registration, and the hibernation message. A scenario calls `SetupRestartTimer` directly where `Load` would.
- Log lines (`Logger`) and localised strings (`Localizer`) are not recorded. A chat notice is abstract: its unit, whole number and plural flag, plus the restart moment in seconds from today's midnight. The "yyyy-MM-dd HH:mm:ss" formatting is not modelled.
- RestartTime.ParseRestartTime: accepts exactly the `H:m` spellings with one or two digits per field, hours below 24 and minutes below 60. The host's `TimeSpan.TryParse` also accepts surrounding whitespace, a leading `-`, fields of three or more digits with leading zeros ("003:50" and "03:050" are 03:50), a day count on its own or before the time (`d`, `d.hh:mm`), seconds and fractions; the model rejects all of these as unparsable. For such a form with non-negative fields the host goes on with its hours and minutes (a bare day count means 00:00), and the model does not cover that. A negative value such as "-03:50" parses to hours -3 and minutes -50. The `DateTime` constructor at AutoRestart.cs:121 then throws, and the exception escapes `SetupRestartTimer` (and so `OnConfigParsed`), `NotifyPlayerAboutRestart` and `ManageServerRestart`. The model instead treats the string as a failed calculation (-1): it keeps the old timer, sends the error notice, or commits nothing.
- The clock is a `now` parameter in [0, 86400) seconds of local time. Calendar dates and daylight-saving changes are not modelled. One `now` serves a whole callback, whereas the source reads the clock for each player it notifies.
- Floating-point detail is not modelled. Durations and the 0.6 threshold are exact reals, so the `(float)` casts and the rounding of 0.6f are absent. A slot count of 0 or below is excluded by `CheckPlayers`'s requires, and by `ManageServerRestart`'s when the map is not loading. The source accepts such a count. With a negative `sv_visiblemaxplayers` other than -1 (say -2), the float share at AutoRestart.cs:166 is 0 or below, so the gate opens for any player count. With 0 slots, the share is infinite for one or more players, so only the instant-shutdown threshold can open the gate; for no players it is NaN, and the threshold test alone decides.
- A null controller, from a slot lookup or a spawn event, is not modelled. Players are given as values.
- The notified table and the two flags are static, i.e. shared by all plugin instances, in the source. The model keeps them in the single plugin object.
- `quit` ending the process is not modelled. The record goes on after a `Quit`, as if the host kept running the plugin's callbacks.
- Deferred execution is not modelled: timers firing, `Server.NextFrame`, and a killed timer not firing. Each firing is a method call made by the host. `PrepareServerShutdown` and `ShutdownServer` require that a shutdown was committed, because the host only runs them from timers that exist after that point.
- The duplicate-key exception of the dictionary insert is the `DuplicateSlot` outcome with the state unchanged. How the host handles the exception is not modelled.
- The two `foreach` loops (`ManageServerRestart`, `PrepareServerShutdown`) gather their chat lines, table updates and kicks, and the class method then applies them in one step. Nothing runs in between, so the record and the final state are the same as the source's step-by-step updates.
