# Voice-moderation core of a Discord bot, in Dafny

This project models the moderation core of a Discord bot (DiscordBot_BlackW0lfManager).
The bot server-mutes and unmutes members of voice channels. It has four parts:

- **Duration parser** (`utils/time_parser.py`). It turns a token such as `30s`, `5m`,
  `1h` or `1d` into a span of seconds. Module `TimeParser` models it as a pure function.
  `Parsed` has three cases: a span, no match (the `None` of the source), or the
  `OverflowError` that Python's `timedelta` raises beyond its maximum of 999999999 days
  and 86399 seconds.
- **Timed-mute registry** (`bot.timed_mute_tasks`). It maps a (guild, member) key to the
  task that will lift that member's mute. Class `TimedMutes.Bot` holds the map together
  with the event loop's view of the tasks:
  - the ids of tasks still pending;
  - the key and delay each task was created with;
  - the next fresh id.

  Its invariant `RegistryInvariant` says three things. The registered tasks are exactly
  the pending ones. Each is registered under the key it was created for. Every id handed
  out is below the next fresh id.
- **Single-member commands** (`cogs/user_mute.py`). Module `UserMute` models `/mute`
  (for a duration), `/unmute` and the timer body `unmute_after_delay`, as methods that
  update a `Bot`.
- **Whole-channel commands**. Module `ChannelMute` models `/mutechannel` and
  `/unmutechannel` from `cogs/channel_mute.py`. Module `BotCommands` models the older
  `/mute` and `/unmute` channel commands from `bot.py`. Each one filters the channel's
  member list, then edits the candidates one by one. It counts successes and keeps one
  error line per failure. Module `BulkTally` holds the reference definition `Run` of
  what such a loop accumulates; every loop is proved equal to it.

Discord is not called. Everything the handlers read from it is a parameter:

- the target member and their voice state;
- the channel's member list;
- the voice state a loop reads when it reaches a member (`voiceNow`);
- what `guild.get_member` returns when a timer fires.

How each `member.edit` call ends (success, `Forbidden`, another HTTP error, any other
exception) is a parameter too. The calls the handlers issue are returned as `EditCall`
values.

Each handler and each timer firing is one atomic step, as on asyncio's single-threaded
loop. `cancel()` means the cancelled task never runs. A timer may fire at any moment
while its task is pending: `UnmuteAfterDelay` can be applied to any pending task.

Module `Scenarios` states whole sequences on a fresh registry and proves what they send and what the registry holds afterwards:

- a timed mute that expires;
- a re-mute that replaces the timer, and one that is turned away because the member is
  still muted;
- a manual unmute that cancels the timer;
- a channel mute that skips an already-muted member.

Some behaviours of the code are easy to misread. The model follows the code:

- **Zero durations.** `"0s"` parses to a zero span rather than failing. `mute_user`
  then rejects it as non-positive (`ParseAcceptsZero`, and the `NonPositiveDuration`
  guard of `MuteUser`).
- **Maximum duration.** There is a maximum. A span past `timedelta`'s range raises
  `OverflowError` from the parser, and the exception escapes `/mute` before anything is
  touched (`DurationOverflow`).
- **Re-muting.** A second `/mute` of a member who is still muted is rejected
  (`AlreadyMuted`). The old timer is replaced only when the member was unmuted in
  between by other means (`RemuteWhileMuted`, `RemuteReplacesTimer`).
- **What the firing timer checks.** It checks that the member has a voice state and is
  muted. It does not check that the voice state names a channel, as the command guards
  do (`member.voice.channel`).

## Model

| member | source | states |
|---|---|---|
| TimeParser.ParseDuration | utils/time_parser.py:4-29 | The result is "no match" exactly when the token, as typed, is not one or more ASCII digits followed by one unit letter `s`/`m`/`h`/`d` in either case. So the final fall-through `return None` is never reached for a matching token. Otherwise the result is the decimal value times 1, 60, 3600 or 86400 seconds (per the unit table `UnitSeconds`), or an overflow when that exceeds the `timedelta` maximum |
| TimeParser.LowerMatches | utils/time_parser.py:15 | Lower-casing keeps the digits and the position of the unit letter. The full match on the lower-cased token succeeds exactly when the token as typed has the accepted shape |
| TimeParser.ParseIgnoresCase | utils/time_parser.py:15 | Parsing a token and parsing its lower-cased form give the same result, so `"10M"` and `"10m"` agree |
| TimeParser.DecimalRoundTrip | utils/time_parser.py:19 | Reading back the decimal rendering of any natural number gives that number |
| TimeParser.ZerosValue | utils/time_parser.py:19 | A run of zeros is all digits and reads as 0 |
| TimeParser.LeadingZeros | utils/time_parser.py:19 | Leading zeros do not change the value read from a digit string |
| TimeParser.ParseRendered | utils/time_parser.py:15-28 | For every number, any count of leading zeros and every unit letter in either case, the rendered token parses to that number times the unit's seconds, or to an overflow past the maximum |
| TimeParser.ParseAcceptsZero | utils/time_parser.py:15-22 | `"0s"` and `"0d"` parse to a zero span, not to "no match" |
| TimeParser.ParseReadings | utils/time_parser.py:21-28 | `"30s"` is 30 s; `"10m"` and `"10M"` are 600 s; `"2d"` is 172800 s |
| TimeParser.ParseLeadingZeros | utils/time_parser.py:15-22 | `"007s"` is 7 seconds |
| TimeParser.ParseRejections | utils/time_parser.py:15-17 | These tokens give "no match": `""`, `"5"`, `"m10"`, `"-5m"`, `"10x"`, `" 5m"`, `"5m "` and `"1.5h"` |
| TimedMutes.PendingTaskIsRegistered | cogs/user_mute.py:20-24 | Under the registry invariant, a task that has not been cancelled or completed is registered under the key it was created for. So the "key no longer registered" early return never applies to a task that actually runs |
| TimedMutes.OneLiveTimerPerKey | cogs/user_mute.py:96-108 | At most one live timer per member: two pending tasks created for the same key are the same task |
| TimedMutes.RemovePreservesInvariant | cogs/user_mute.py:97-99 | Cancelling and deleting a key's entry keeps the registry invariant |
| TimedMutes.InsertPreservesInvariant | cogs/user_mute.py:107-108 | Registering a freshly created task under a free key keeps the registry invariant |
| TimedMutes.Bot.CancelAndRemove | cogs/user_mute.py:97-99 | The key leaves the registry and its task, if any, is cancelled. Nothing else changes; an absent key is a no-op, so calling it twice is harmless. The invariant is kept |
| TimedMutes.Bot.Schedule | cogs/user_mute.py:107-108 | A fresh task is created for the key with the given delay, and it becomes the key's entry. The invariant is kept |
| TimedMutes.Bot.Complete | cogs/user_mute.py:53-55 | A firing task ends with its own key removed and is no longer pending. No other task is affected |
| UserMute.MuteUser | cogs/user_mute.py:63-123 | The guards apply in order: the bot itself, not in a voice channel, already muted, unparseable duration, over-long duration (the exception escapes), zero duration. The command is turned away exactly when one of them fails, and then it issues no edit and leaves the registry unchanged. Past the guards, exactly one mute edit is issued for the member, and the registry changes as `ApplyMute` states. The invariant is kept |
| UserMute.ApplyMute | cogs/user_mute.py:93-123 | The key's old timer is cancelled and dropped whatever happens, even when the edit then fails. A failed edit registers nothing. A successful edit creates exactly one new timer for the parsed seconds, and it becomes the key's only entry. If an unexpected exception is raised after that, inside the same `try`, the clean-up cancels and drops the new timer again |
| UserMute.ScheduleAndConfirm | cogs/user_mute.py:106-123 | After a successful edit, the new timer is registered under the free key. An unexpected exception from the confirmation removes it again and leaves exactly the registry there was before. A `Forbidden` or HTTP error from the confirmation leaves the timer in place |
| UserMute.UnmuteUser | cogs/user_mute.py:128-168 | The guards apply in order: the bot itself, not in a voice channel, not muted. It is rejected exactly when a guard fails, with no edit and no state change. Otherwise exactly one unmute edit is issued. The command succeeds exactly when that edit succeeds, and only then is the member's timer cancelled and removed. When the guards pass and the edit fails, the result is that edit failure and the registry is untouched |
| UserMute.UnmuteAfterDelay | cogs/user_mute.py:14-55 | A firing task issues the unmute edit exactly when the guild is available and the member is still in the guild, has a voice state and is still muted. Edit failures are absorbed. In every branch (guild missing, edited, manually unmuted, left the server, left voice) the task's key is removed and the task is done. No other entry changes |
| BulkTally.Run | cogs/channel_mute.py:32-44 | Reference definition of the per-member loop. Every candidate ends up either in the success count or in the error list, and there are never more edits than candidates nor more successes than edits |
| BulkTally.Attempted | cogs/channel_mute.py:32-34 | The candidates that are edited are exactly those that still qualify. The body is the order-preserving filter; the ensures gives membership |
| BulkTally.RunCalls | cogs/channel_mute.py:32-44 | The loop issues exactly one edit per candidate that still qualifies when reached, in order, and none for the others |
| BulkTally.RunCountsSuccesses | cogs/channel_mute.py:35-37 | The success counter equals the number of edits that succeeded |
| BulkTally.AttemptedAll | bot.py:78-81 | When every candidate qualifies, as in the `bot.py` loops that never re-check, every candidate is edited |
| ChannelMute.MuteCandidates | cogs/channel_mute.py:26 | The candidates are exactly the snapshot's members other than the bot who have no voice state or are not muted. The body is the order-preserving filter; the ensures gives membership |
| ChannelMute.UnmuteCandidates | cogs/channel_mute.py:66 | The candidates are exactly the snapshot's members other than the bot who have a voice state and are muted. The body is the order-preserving filter; the ensures gives membership |
| ChannelMute.MuteChannel | cogs/channel_mute.py:15-50 | When there is no candidate, it returns early with no edit. Otherwise it reports `len(candidates)` as attempted, which includes members who left. The report equals the reference loop run on the candidates, with a member still eligible when reached exactly when it still has a voice state. So there is one mute edit per such member, the counter is the number of successful edits, and successes plus error lines equal the candidates. The registry is not a parameter, so it is neither read nor changed |
| ChannelMute.MuteEach | cogs/channel_mute.py:32-44 | The loop's counter, error list and edits equal the reference loop `Run` on the candidates |
| ChannelMute.UnmuteChannel | cogs/channel_mute.py:55-96 | The same report properties for unmuting, with a member eligible when reached exactly when still in voice and muted. Afterwards the registry is the old one minus exactly the keys whose unmute succeeded. Timers for failed or skipped members stay. The invariant is kept |
| ChannelMute.UnmuteEach | cogs/channel_mute.py:72-90 | The loop's counter, error list and edits equal the reference loop, and exactly the members whose unmute succeeded lose their registry entry |
| ChannelMute.UnmuteMember | cogs/channel_mute.py:73-90 | For one candidate: re-check the voice state, then behave as one step of the reference loop. The registry loses the member's entry exactly when the unmute succeeded |
| BotCommands.LegacyMuteCandidates | bot.py:72 | The candidates are exactly the non-bot members whose mute flag is clear. The body is the order-preserving filter; the ensures gives membership. This is defined only when every non-bot member's voice state can be read |
| BotCommands.LegacyUnmuteCandidates | bot.py:109 | The candidates are exactly the non-bot members whose mute flag is set, under the same condition. The body is the order-preserving filter; the ensures gives membership |
| BotCommands.SameCandidates | bot.py:72-109 | When every voice state can be read, the unguarded filters of `bot.py` select the same members, in the same order, as the guarded filters of the channel cog |
| BotCommands.EditAll | bot.py:78-86 | The loop equals the reference loop with every candidate eligible. It issues exactly one edit per candidate, in order; the counter is the number of successes; each failure adds exactly one error line; the loop never stops early |
| BotCommands.Mute | bot.py:56-93 | The list comprehension raises exactly when a non-bot member has no voice state (`Aborted`). It returns early exactly when no member needs muting. Otherwise the report is exactly the reference loop `Run` over every unmuted non-bot member, all eligible: one mute edit each, a count of successes, and one error line per failure naming that member with a Forbidden or other-error kind. No timed-mute registry is involved |
| BotCommands.Unmute | bot.py:95-130 | The same for unmuting: the report is exactly `Run` over the muted non-bot members, with the same error lines. Unlike the channel cog's unmute, timers stay registered, because there is no registry to update |
| Scenarios.TimedMuteExpires | cogs/user_mute.py:14-123 | A successful `/mute` for any accepted duration registers one timer of that many seconds. When it fires on a still-muted member, exactly one mute and one unmute were sent, and the registry ends empty with no task pending |
| Scenarios.RemuteWhileMuted | cogs/user_mute.py:78-80 | A second `/mute` while the member is still muted is turned away and the first timer stays |
| Scenarios.RemuteReplacesTimer | cogs/user_mute.py:96-108 | Re-muting a member who was unmuted in between cancels the first timer. Exactly one entry remains, and it is the second timer with the second duration |
| Scenarios.ManualUnmuteCancels | cogs/user_mute.py:151-156 | `/mute` then `/unmute` sends exactly two edits and leaves no entry and no pending task, so no third edit can follow |
| Scenarios.ChannelCandidates | cogs/channel_mute.py:26 | In a channel with the bot, three unmuted members and one muted member, the candidates are the three unmuted members, in order |
| Scenarios.ChannelMuteSkipsMuted | cogs/channel_mute.py:26-46 | On that channel, with everyone still in voice, exactly three mute edits are attempted (the unmuted members, in order). The already-muted member is not counted |

## Left out

- The registry's creation and the loading of the cogs are not part of this model. `bot.timed_mute_tasks` is never assigned in `bot.py` or the cogs. `TimedMutes.Bot`'s constructor starts it empty.
- Interleavings inside a handler are not modelled. These include a timer firing while a command awaits `member.edit`, and a `cancel()` that lands on a timer already running its edit. Each handler and each firing is one atomic step.
- Elapsed time is not modelled. `asyncio.sleep` is not represented, and the firing order of timers is not constrained. A timer records its delay, and any pending timer may fire next.
- Discord itself is not modelled: no REST calls, no member cache and no gateway events. They appear only as parameters: voice states, the channel snapshot, what `get_member` returns, and how each edit ends.
- Message texts, `print` logging, `defer` and `followup` are not modelled. The one exception is the `/mute` confirmation, which sits inside the `try` whose clean-up changes the registry.
- UnmuteUser: an exception from the confirmation message is not modelled. It comes after the registry update and changes no state.
- The `has_permissions(mute_members=True)` checks are not modelled, and neither is how the error handler (`cogs/error_handler.py`, `on_app_command_error`) reports an escaped exception. That covers `DurationOverflow` and `Aborted`.
- The `isinstance(channel, discord.VoiceChannel)` guards are not modelled. The declared parameter type already ensures them.
- UnmuteAfterDelay: there is no branch for the early return of `cogs/user_mute.py:21-24`. A cancelled task never runs, and a task that runs is pending. `PendingTaskIsRegistered` proves that a pending task always finds its own entry, so that branch cannot be taken in this model.
- TimeParser.ParseDuration: only ASCII digits and ASCII upper-case letters are modelled. Python's `\d` and `int()` also accept other Unicode decimal digits, and `str.lower` folds non-ASCII letters.
- TimeParser.ParseDuration: Python's limit of 4300 digits on `int()` of a string is not modelled. A longer digit string would raise `ValueError` instead of parsing.
- `timedelta.total_seconds()` returns a float; durations here are whole seconds, so float rounding of huge spans is not modelled.
- `bot.py` `on_ready`, `quit_channel` and the start-up block are not part of this model. Neither is the clash between the `bot.py` `/mute` and `/unmute` and the cog commands of the same names.
