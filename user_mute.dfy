/** The single-member commands of cogs/user_mute.py (`/mute` for a duration and
    `/unmute`) and the timer body that lifts a timed mute. */
module UserMute {
  import opened Gateway
  import opened TimeParser
  import opened TimedMutes

  /** Why a command turned its input away before touching anything. */
  datatype Rejection = TargetIsBot | NotInVoice | AlreadyMuted | NotMuted | InvalidDuration | NonPositiveDuration

  /** How a command ended: turned away; the OverflowError of an over-long duration
      escaping the handler; the edit applied and confirmed; the edit raised; or the edit
      was applied and the confirmation sent inside the same `try` raised. */
  datatype CommandResult = Rejected(reason: Rejection) | DurationOverflow | Done | EditFailed(outcome: EditOutcome) | ReplyFailed(outcome: EditOutcome)

  /** Which branch a firing timer took. */
  datatype FireResult = GuildMissing | AutoUnmute(outcome: EditOutcome) | ManuallyUnmuted | LeftServer | LeftVoice

  /** The guards of `mute_user` that come before the duration: not the bot, in a voice
      channel, not yet muted. */
  predicate CanMute(me: MemberId, target: Member)
  {
    target.id != me && InVoiceChannel(target) && !target.voice.value.muted
  }

  /** The guards of `unmute_user`: not the bot, in a voice channel, muted. */
  predicate CanUnmute(me: MemberId, target: Member)
  {
    target.id != me && InVoiceChannel(target) && target.voice.value.muted
  }

  /** `mute_user`: check the target and the duration in order, then hand over to
      `ApplyMute`. An over-long duration makes the parser raise, and the exception
      escapes the handler before anything is touched. */
  method MuteUser(bot: Bot, guild: GuildId, target: Member, duration: string, outcome: EditOutcome, reply: EditOutcome)
    returns (r: CommandResult, call: Option<EditCall>)
    requires bot.Valid()
    modifies bot
    ensures bot.Valid()
    // the guards, in the order the handler applies them
    ensures target.id == bot.me ==> r == Rejected(TargetIsBot)
    ensures target.id != bot.me && !InVoiceChannel(target) ==> r == Rejected(NotInVoice)
    ensures target.id != bot.me && InVoiceChannel(target) && target.voice.value.muted ==> r == Rejected(AlreadyMuted)
    ensures CanMute(bot.me, target) && ParseDuration(duration).NoMatch? ==> r == Rejected(InvalidDuration)
    ensures CanMute(bot.me, target) && ParseDuration(duration).Overflow? ==> r == DurationOverflow
    ensures CanMute(bot.me, target) && ParseDuration(duration) == Span(0) ==> r == Rejected(NonPositiveDuration)
    // a rejection, or the exception escaping the parser, happens exactly when a guard
    // fails; it changes nothing and edits no one
    ensures (r.Rejected? || r.DurationOverflow?) <==>
      !(CanMute(bot.me, target) && ParseDuration(duration).Span? && ParseDuration(duration).seconds > 0)
    ensures r.Rejected? || r.DurationOverflow? ==>
      && call == None
      && bot.timedMuteTasks == old(bot.timedMuteTasks) && bot.pending == old(bot.pending)
      && bot.timers == old(bot.timers) && bot.nextTask == old(bot.nextTask)
    // past the guards, `ApplyMute` runs on the member's key and the parsed seconds
    ensures !(r.Rejected? || r.DurationOverflow?) ==>
      && CanMute(bot.me, target)
      && ParseDuration(duration).Span? && ParseDuration(duration).seconds > 0
      && call == Some(EditCall(Key(guild, target.id), true, outcome))
      && MuteApplied(old(bot.timedMuteTasks), old(bot.pending), old(bot.timers), old(bot.nextTask),
                     bot.timedMuteTasks, bot.pending, bot.timers, bot.nextTask,
                     Key(guild, target.id), ParseDuration(duration).seconds, outcome, reply, r)
  {
    call := None;
    if target.id == bot.me {
      return Rejected(TargetIsBot), call;
    }
    if target.voice.None? || !target.voice.value.inChannel {
      return Rejected(NotInVoice), call;
    }
    if target.voice.value.muted {
      return Rejected(AlreadyMuted), call;
    }
    var delta := ParseDuration(duration);
    if delta.NoMatch? {
      return Rejected(InvalidDuration), call;
    }
    if delta.Overflow? {
      return DurationOverflow, call;
    }
    if delta.seconds <= 0 {
      return Rejected(NonPositiveDuration), call;
    }
    var key := Key(guild, target.id);
    call := Some(EditCall(key, true, outcome));
    r := ApplyMute(bot, key, delta.seconds, outcome, reply);
  }

  /** The registry after the part of `mute_user` past the guards, from the registry
      before it: the key's old timer is cancelled and dropped whatever happens; a
      successful edit creates exactly one new timer for `seconds`, which stays as the
      key's only timer unless an unexpected exception from the confirmation reaches
      the clean-up, which cancels and drops it again. */
  ghost predicate MuteApplied(tasks0: map<Key, TaskId>, pending0: set<TaskId>, timers0: map<TaskId, Timer>, next0: TaskId,
                              tasks: map<Key, TaskId>, pending: set<TaskId>, timers: map<TaskId, Timer>, next: TaskId,
                              key: Key, seconds: nat, outcome: EditOutcome, reply: EditOutcome, r: CommandResult)
  {
    if outcome != EditOk then
      && r == EditFailed(outcome)
      && tasks == tasks0 - {key} && pending == pending0 - TaskAt(tasks0, key)
      && timers == timers0 && next == next0
    else
      && r == (if reply == EditOk then Done else ReplyFailed(reply))
      && timers == timers0[next0 := Timer(key, seconds)] && next == next0 + 1
      && (if reply == OtherError then
            tasks == tasks0 - {key} && pending == pending0 - TaskAt(tasks0, key)
          else
            tasks == tasks0[key := next0] && pending == pending0 - TaskAt(tasks0, key) + {next0})
  }

  /** Lines 93-123 of `mute_user`: cancel the key's old timer, issue the mute, register
      a timer on success, and clean up on an unexpected exception. `outcome` is how the
      edit ends and `reply` how the confirmation sent after the timer is registered
      ends; both lie inside the same `try`. */
  method ApplyMute(bot: Bot, key: Key, seconds: nat, outcome: EditOutcome, reply: EditOutcome) returns (r: CommandResult)
    requires bot.Valid()
    modifies bot
    ensures bot.Valid()
    ensures MuteApplied(old(bot.timedMuteTasks), old(bot.pending), old(bot.timers), old(bot.nextTask),
                        bot.timedMuteTasks, bot.pending, bot.timers, bot.nextTask, key, seconds, outcome, reply, r)
  {
    bot.CancelAndRemove(key);
    if outcome != EditOk {
      if outcome == OtherError {
        // the handler's clean-up for a task that might have been created
        bot.CancelAndRemove(key);
      }
      r := EditFailed(outcome);
    } else {
      r := ScheduleAndConfirm(bot, key, seconds, reply);
    }
  }

  /** The edit succeeded and the key is free: register the new timer, then send the
      confirmation; an unexpected exception from it reaches the clean-up. */
  method ScheduleAndConfirm(bot: Bot, key: Key, seconds: nat, reply: EditOutcome) returns (r: CommandResult)
    requires bot.Valid() && key !in bot.timedMuteTasks
    modifies bot
    ensures bot.Valid()
    ensures r == if reply == EditOk then Done else ReplyFailed(reply)
    ensures bot.timers == old(bot.timers)[old(bot.nextTask) := Timer(key, seconds)]
    ensures bot.nextTask == old(bot.nextTask) + 1
    ensures reply == OtherError ==> bot.timedMuteTasks == old(bot.timedMuteTasks) && bot.pending == old(bot.pending)
    ensures reply != OtherError ==>
      && bot.timedMuteTasks == old(bot.timedMuteTasks)[key := old(bot.nextTask)]
      && bot.pending == old(bot.pending) + {old(bot.nextTask)}
  {
    var t := bot.Schedule(key, seconds);
    if reply == OtherError {
      // the same clean-up, now finding the timer just created
      bot.CancelAndRemove(key);
    }
    r := if reply == EditOk then Done else ReplyFailed(reply);
  }

  /** `unmute_user`: check the target in order, issue the unmute, and only once it has
      succeeded cancel and drop the member's timer, if any. */
  method UnmuteUser(bot: Bot, guild: GuildId, target: Member, outcome: EditOutcome)
    returns (r: CommandResult, call: Option<EditCall>)
    requires bot.Valid()
    modifies bot
    ensures bot.Valid()
    ensures target.id == bot.me ==> r == Rejected(TargetIsBot)
    ensures target.id != bot.me && !InVoiceChannel(target) ==> r == Rejected(NotInVoice)
    ensures target.id != bot.me && InVoiceChannel(target) && !target.voice.value.muted ==> r == Rejected(NotMuted)
    ensures r.Rejected? <==> !CanUnmute(bot.me, target)
    ensures r.Rejected? ==>
      && call == None
      && bot.timedMuteTasks == old(bot.timedMuteTasks) && bot.pending == old(bot.pending)
      && bot.timers == old(bot.timers) && bot.nextTask == old(bot.nextTask)
    ensures !r.Rejected? ==> call == Some(EditCall(Key(guild, target.id), false, outcome))
    ensures r == Done <==> CanUnmute(bot.me, target) && outcome == EditOk
    ensures CanUnmute(bot.me, target) && outcome != EditOk ==> r == EditFailed(outcome)
    ensures r == Done ==>
      && bot.timedMuteTasks == old(bot.timedMuteTasks) - {Key(guild, target.id)}
      && bot.pending == old(bot.pending) - TaskAt(old(bot.timedMuteTasks), Key(guild, target.id))
      && bot.timers == old(bot.timers) && bot.nextTask == old(bot.nextTask)
    ensures r.EditFailed? ==>
      && r.outcome == outcome
      && bot.timedMuteTasks == old(bot.timedMuteTasks) && bot.pending == old(bot.pending)
      && bot.timers == old(bot.timers) && bot.nextTask == old(bot.nextTask)
  {
    call := None;
    if target.id == bot.me {
      return Rejected(TargetIsBot), call;
    }
    if target.voice.None? || !target.voice.value.inChannel {
      return Rejected(NotInVoice), call;
    }
    if !target.voice.value.muted {
      return Rejected(NotMuted), call;
    }
    var key := Key(guild, target.id);
    call := Some(EditCall(key, false, outcome));
    if outcome == EditOk {
      bot.CancelAndRemove(key);
      r := Done;
    } else {
      r := EditFailed(outcome);
    }
  }

  /** `unmute_after_delay` once its sleep is over, for a task that was not cancelled.
      `guildFound` is whether `interaction.guild` is still available and `found` is what
      `guild.get_member` returns now. The unmute is issued only when the member is
      still in the guild, has a voice state and is still muted; whatever happens, the
      task's key leaves the registry and the task is done. */
  method UnmuteAfterDelay(bot: Bot, t: TaskId, guildFound: bool, found: Presence, outcome: EditOutcome)
    returns (r: FireResult, call: Option<EditCall>)
    requires bot.Valid() && t in bot.pending
    modifies bot
    ensures bot.Valid()
    ensures t in bot.timers && bot.timers == old(bot.timers) && bot.nextTask == old(bot.nextTask)
    ensures bot.timedMuteTasks == old(bot.timedMuteTasks) - {bot.timers[t].key}
    ensures bot.pending == old(bot.pending) - {t}
    ensures call.Some? <==> guildFound && found.InGuild? && IsMuted(found.voice)
    ensures call.Some? ==> call.value == EditCall(bot.timers[t].key, false, outcome) && r == AutoUnmute(outcome)
    ensures !guildFound ==> r == GuildMissing
    ensures guildFound && found.InGuild? && found.voice.Some? && !found.voice.value.muted ==> r == ManuallyUnmuted
    ensures guildFound && found.NotInGuild? ==> r == LeftServer
    ensures guildFound && found.InGuild? && found.voice.None? ==> r == LeftVoice
  {
    // A task that is still pending always finds its own entry, so the handler's
    // early return for a missing key never applies here.
    PendingTaskIsRegistered(bot.timedMuteTasks, bot.pending, bot.timers, bot.nextTask, t);
    call := None;
    if !guildFound {
      bot.Complete(t);
      return GuildMissing, call;
    }
    var key := bot.timers[t].key;
    if found.InGuild? && found.voice.Some? && found.voice.value.muted {
      call := Some(EditCall(key, false, outcome));
      r := AutoUnmute(outcome);
    } else if found.InGuild? && found.voice.Some? && !found.voice.value.muted {
      r := ManuallyUnmuted;
    } else if found.NotInGuild? {
      r := LeftServer;
    } else {
      r := LeftVoice;
    }
    bot.Complete(t);
  }
}
