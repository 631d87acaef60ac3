# OpenSpades client session core, in Dafny

This project models the core of the OpenSpades game client's `Client` object
(`Sources/Client/Client.cpp`): the session that binds a game world to the renderer
and the audio device, runs the per-frame loop with its startup countdown and network
poll, routes chat and server messages, chooses the player to follow while spectating,
asks the server for a team and weapon, and picks file names for the net log and for
map snapshots.

Layout:

- `types.dfy` (`Types`): `Option`/`Result`, player state as the client reads it
  (name, team, alive, whether the view direction is usable, weapon), network status,
  alert severities.
- `follow.dfy` (`Follow`): the spectator's next-target rule as a specification function,
  `NextTarget`, and the "follow forward, then backward, returns to the start" lemma.
- `filenames.dfy` (`FileNames`): C `%0Nd` formatting, the net-log timestamp and host
  sanitising, and the `Mapshots/shotNNNN.vxl` search.
- `router.dfy` (`Router`): where a server message goes, alert timeouts and sounds, and
  the chat log line formats.
- `frame.dfy` (`FrameRules`): the frame loop's control flow on a small state
  (countdown, clock, init clock, delayed reload flag) and lemmas over runs of frames.
- `spawn.dfy` (`SpawnRules`): which join, team-change or weapon-change requests a
  spawn sends.
- `session.dfy` (`Session`): the `Client` class with its fields updated in place, and
  the collaborators it calls (`World`, `Renderer`, `AudioDevice`, `NetClient`,
  `ClientPlayer`), kept down to the state the client reads or changes. Calls into
  subsystems whose effect is invisible to the client (drawing, UI windows, asset
  registration) are recorded, in order, as `Effect` values in the `effects` trace.
  `Valid()` is the invariant the constructor establishes and every operation except
  `Destroy` keeps (the small helpers they are split into state their own effects
  instead): the countdown is in 0..5, the network client exists exactly once the
  countdown has reached 0, the screenshot counter is in 0..9999, and the world is
  either fully bound (listener registered, the same map given to the renderer and
  audio device, one view slot per player slot) or fully unbound.

## Model

| member | source | states |
|---|---|---|
| Session.Client.constructor | Sources/Client/Client.cpp:72-140 | a new client holds no world, no network client and no net log, starts the 5-frame countdown, keeps the first 15 characters of the player name, hides the alert at time -10000, and clears the renderer's map; the invariant holds |
| Session.TruncatedName | Sources/Client/Client.cpp:77 | the name is the first 15 characters of `cg_playerName`, or the whole name when it is no longer than that |
| Session.Client.SetWorld | Sources/Client/Client.cpp:142-206 | setting the same world changes nothing; otherwise the old world loses its listener, every old view object is invalidated, the new world gets the listener and one fresh, valid view object per occupied slot, renderer and audio get its map, the Loaded/Unloaded line is logged, UI state resets, and the limbo window is left only when the world becomes null; the invariant is kept |
| Session.Client.Destroy | Sources/Client/Client.cpp:208-252 | logs "Disconnecting", closes the net log before disconnecting the network, clears the renderer's and audio device's maps, invalidates every view object and drops the world |
| Session.Client.DoInit | Sources/Client/Client.cpp:255-383 | creates a network client connecting to the host, links presence with the host as context and the player name as identity, and opens the net log at `NetLogPath(host, clock)` when the file can be opened |
| FileNames.BuildNetLogPath | Sources/Client/Client.cpp:355-375 | the loop builds exactly `NetLogPath(host, t)`: `NetLogs/`, the timestamp, the sanitised host, `.log` |
| FileNames.Sanitized | Sources/Client/Client.cpp:367-374 | the result has the host's length, ASCII letters and digits are kept, every other character becomes `_` |
| FileNames.TimestampRoundTrip | Sources/Client/Client.cpp:358-365 | for in-range clock fields, the 15-character `%04d%02d%02d%02d%02d%02d_` stamp (year + 1900, month + 1) decodes back to the same time |
| FileNames.NetLogPathLayout | Sources/Client/Client.cpp:355-375 | the net-log path is `NetLogs/` + 15-character stamp + a host part of the host's length + `.log` |
| FileNames.PaddedFits | Sources/Client/Client.cpp:363-364 | a number below 10^width prints in exactly `width` digits and reads back as itself |
| FileNames.DecimalValue | Sources/Client/Client.cpp:363-364 | the decimal digits of n read back as n |
| FileNames.ShotFileNameRoundTrip | Sources/Client/Client.cpp:596 | `Mapshots/shot%04d.vxl` for an index in 0..9999 parses back to that index |
| FileNames.ShotFileNameInjective | Sources/Client/Client.cpp:596 | distinct indices in 0..9999 give distinct snapshot names |
| FileNames.FreeShotFrom | Sources/Client/Client.cpp:595-605 | a found index is in 0..9999 and its name is not among the existing files |
| FileNames.FirstFreeShotIsFirst | Sources/Client/Client.cpp:595-605 | every name passed over before the found index, counting from the start with wrap-around, already exists |
| FileNames.FirstFreeShotNoneIffFull | Sources/Client/Client.cpp:595-607 | the search fails exactly when all 10000 snapshot names exist |
| FileNames.FirstFreeAfterFortyThree | Sources/Client/Client.cpp:595-605 | with shot0000..shot0042 present and the counter at 0, the first free index is 43 |
| Session.Client.MapShotPath | Sources/Client/Client.cpp:593-608 | returns the first free name from the screenshot counter on and leaves the counter on it, or fails with "No free file name" and the counter where it started; the map-shot counter is not touched |
| Session.Client.RunFrame | Sources/Client/Client.cpp:385-470 | counter, clock, init clock and delayed-reload flag move exactly as `Tick` says; warm-up frames only draw the startup screen; the frame where the countdown hits 0 runs DoInit and then polls; polls wait 0 ms when connected, 10 ms otherwise; a poll failure ends the frame with the disconnect line logged only when the status reads NotConnected; a completed frame runs the frame steps in order and records the UI's close request |
| Session.Client.PollNetwork | Sources/Client/Client.cpp:406-420 | the wait depends on the status before the poll, and a failure is fatal exactly when the status after it is NotConnected |
| Session.Client.DrawFrame | Sources/Client/Client.cpp:422-469 | the frame steps run in order, world update or limbo fog depending on the world, the close request is latched, delayed reload is cleared and the clock advances by dt |
| FrameRules.Tick | Sources/Client/Client.cpp:385-470 | a frame is a warm-up frame exactly while the countdown has not reached 0, ends disconnected exactly on a fatal poll after warm-up, advances the init clock by the capped step on every frame past warm-up (fatal or not), and advances the clock and clears delayed reload exactly when it completes |
| FrameRules.WarmUpStep | Sources/Client/Client.cpp:390-401 | the countdown decreases to 0 and stays there; the init frame is the one where it goes from 1 to 0 |
| FrameRules.PollWait | Sources/Client/Client.cpp:408-411 | 0 ms exactly when connected, 10 ms otherwise |
| FrameRules.InitStep | Sources/Client/Client.cpp:404 | the init clock advances by the smaller of dt and 0.03 |
| FrameRules.CounterAfterCalls | Sources/Client/Client.cpp:390-401 | after c frames the countdown is max(counter - c, 0) |
| FrameRules.WarmUpSchedule | Sources/Client/Client.cpp:87 | from the initial 5, frames 1-4 show the startup screen, frame 5 initialises, later frames run in full |
| FrameRules.WarmUpFramesKeepClock | Sources/Client/Client.cpp:390-401 | warm-up frames neither advance the clock nor touch the init clock nor the delayed-reload flag, and report WarmingUp |
| FrameRules.CountdownEndsWithFullFrame | Sources/Client/Client.cpp:390-469 | as many frames as the countdown, the last one without a fatal poll, end with the countdown at 0 and a completed frame |
| FrameRules.FifthFrameRuns | Sources/Client/Client.cpp:87 | from a fresh client the fifth frame is the first to complete |
| FrameRules.CompletedFrameResets | Sources/Client/Client.cpp:390-469 | a frame completes only past the countdown and without a fatal poll, and then ends with the countdown at 0, the init clock advanced by min(dt, 0.03), delayed reload cleared and the clock advanced by dt |
| SpawnRules.SpawnTeam | Sources/Client/Client.cpp:474-476 | team 2 means spectator (255), other ids are kept |
| SpawnRules.SpawnIntents | Sources/Client/Client.cpp:472-495 | without a local player or as a spectator exactly one join is sent, with the rifle for spectators; on a team, nothing but a team change (exactly when the team differs) followed by a weapon change (exactly when not spectating and the weapon differs) |
| SpawnRules.SpawnUnchangedSendsNothing | Sources/Client/Client.cpp:486-494 | asking for the team and weapon already held sends nothing |
| Session.Client.Spawn | Sources/Client/Client.cpp:472-495 | the requests sent are exactly `SpawnIntents` of the local player |
| Router.DefaultAlertTimeout | Sources/Client/Client.cpp:497-505 | notices last 2.5 s, warnings and errors 3 s |
| Session.Client.ShowAlert | Sources/Client/Client.cpp:497-505 | the alert shows the contents for the severity's default timeout, with the alert sound for warnings and errors |
| Session.Client.ShowAlertTimed | Sources/Client/Client.cpp:507-522 | the alert is replaced, appears now and disappears after the timeout; the alert sound plays exactly for a non-notice that is not quiet |
| Router.RouteServerMessage | Sources/Client/Client.cpp:657-681 | with server alerts on, `N% `, `!% `, `%% ` prefixes become notice, error and warning alerts and `C% ` a center message, each without its prefix; everything else, and everything with server alerts off, goes to chat unchanged |
| Router.RouteKeepsText | Sources/Client/Client.cpp:657-681 | the routed text is the message, or the message with its 3-character code removed |
| Router.RouteExamples | Sources/Client/Client.cpp:657-681 | concrete routings, including a bare `N%` and a coded message with alerts off going to chat |
| Session.Client.ServerSentMessage | Sources/Client/Client.cpp:657-681 | the message is always net-logged and recorded in white in the chat log, and is then shown in exactly the place `RouteServerMessage` chooses |
| Router.ChatNetLogLineLayout | Sources/Client/Client.cpp:644-649 | the net-log line is `[Global] ` or `[Team] `, name, team name in parentheses, `: `, message |
| Router.ChatNetLogLineExample | Sources/Client/Client.cpp:644-646 | a global message from Alice on Blue logs as `[Global] Alice (Blue): gg` |
| Session.Client.PlayerSentChatMessage | Sources/Client/Client.cpp:612-655 | a team-coloured chat-window line, a chat-log line in team colour (white for spectators), the tagged net-log line, and the chat beep exactly when not muted and `cg_chatBeep` is on |
| Follow.Pos | Sources/Client/Client.cpp:693-697 | k steps from the start with wrap-around stay in range and return to the start only after 0 or n steps |
| Follow.StopStep | Sources/Client/Client.cpp:692-715 | the scan stops at the first eligible slot after the start, or after a full turn |
| Follow.NextTarget | Sources/Client/Client.cpp:685-718 | the next followed slot is in range and eligible, or the start when no slot qualifies |
| Follow.StopStepIsFirst | Sources/Client/Client.cpp:692-715 | a step with only ineligible slots before it and an eligible slot at it (or a full turn) is where the scan stops |
| Follow.FollowThereAndBack | Sources/Client/Client.cpp:685-718 | from an eligible player, following to the next and then back in the other direction returns to that player |
| Session.Client.FollowNextPlayer | Sources/Client/Client.cpp:685-718 | the loop leaves the followed id at exactly `NextTarget` for the local player's team (2 without a local player) and the skip-dead setting |
| Session.Client.ScanNext | Sources/Client/Client.cpp:691-715 | the do-while over the slots, with its wrap-around and its exit on returning to the start, ends on exactly `NextTarget` |
| Session.Client.Skipped | Sources/Client/Client.cpp:699-714 | the scan passes over a slot exactly when it is not eligible: empty, another team while on a team, dead while on a team with skip-dead on, no usable view direction, or a spectator |
| Session.Client.IsFollowing | Sources/Client/Client.cpp:720-732 | following needs a local player, and then holds exactly when that player is a spectator or dead |

## Left out

- Net-log line formatting (`NetLog`, Sources/Client/Client.cpp:525-554): the `asctime` prefix, the 4096-byte buffer and control-character escaping; `netLog` records the message text only.
- Process-log lines (`SPLog`) and the frame counter are not modelled: they change nothing the client reads.
- DoInit's renderer initialisation, asset registration and presence-link setup are recorded as the `RegisterAssets` and `MumbleLink` effects; whether the presence link initialises is not modelled.
- Session.Client.SetWorld: the client owns its world and deletes it when swapping in another (Sources/Client/Client.cpp:171) and in the destructor (line 251); the model has no deallocation, so the old world stays a live object — with its listener cleared by SetWorld, and left pointing at the client by Destroy — and its later use is not ruled out.
- Session.Client.RunFrame: the events a poll delivers (the network client calling back into SetWorld, ServerSentMessage and PlayerSentChatMessage from inside `DoEvents`, before the world test) are modelled as separate calls between frames; RunFrame's contract describes a poll that delivers none, which is why a non-fatal frame adds nothing to the net log and leaves the world, chat, center messages and alert untouched.
- The clock, whether the net-log file opens, the network's behaviour during a poll, and the scripted UI's close request are inputs (`FrameEnv`); the network client's internals are not part of this model.
- TakeMapShot (Sources/Client/Client.cpp:558-591) writes the map through the file system and shows a localised alert; only its name search, MapShotPath, is modelled, with the set of existing files as a parameter.
- Drawing, UI windows, the killfeed, the scoreboard, sounds' spatialisation and the random engine are outside the client logic modelled here; their calls appear only as effects.
- Translated strings (`_Tr`) and team-colour markup in the chat window: the chat window entry keeps name, team and text as fields instead.
- The sender's team name and `IsMuted()` are parameters of PlayerSentChatMessage; the team colours themselves are not modelled.
- FileNames.Sanitized: the host is a sequence of characters, not bytes; the source sanitises the `std::string` byte by byte, so each non-ASCII character of a UTF-8 host becomes one `_` per byte there and a single `_` here. For such a host the sanitised part's length, and the lengths NetLogPathLayout states, count characters.
- Session.TruncatedName: counts characters, whereas the source cuts the `std::string` after 15 bytes, so a UTF-8 name with non-ASCII characters keeps fewer characters there and may be cut inside a character.
- Settings are a snapshot held by the client (`settings`), not live global variables.
- Player view directions are a boolean "usable" flag rather than a vector with a 0.01 length threshold.
- Times are `real`: 32-bit float rounding of `time`, `timeSinceInit` and alert times is not modelled.
- Session.Client.constructor: requires the audio device to hold no map, because the source clears only the renderer's map; members the source leaves uninitialised get fixed values.
- Session.Client.FollowNextPlayer: requires a bound world and a followed id within the player slots; with an out-of-range id the source's loop can never meet its exit test.
- FrameRules.Run: stops at the first fatal poll, because the rethrown error ends the frame loop of the caller, which is not part of this model.
- The model follows the code as written: dead players are skipped only when the local player is on a team, snapshot names use `nextScreenShotIndex` (not `nextMapShotIndex`) and the counter stays on the found name, the destructor closes the net log before disconnecting, and the delayed-reload flag is reset only by frames that complete.
