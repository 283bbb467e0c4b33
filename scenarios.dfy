/** Whole runs of the bot, each on a fresh registry: a sequence of commands and timer
    firings, with what they send to Discord and what the registry holds afterwards. */
module Scenarios {
  import opened Gateway
  import opened TimeParser
  import opened TimedMutes
  import opened UserMute
  import opened BulkTally
  import ChannelMute

  /** Someone in a voice channel who is not muted. */
  function Unmuted(id: MemberId): Member
  {
    Member(id, Some(VoiceState(true, false)))
  }

  /** A duration `/mute` accepts: it parses, within range, to a positive span. */
  predicate Accepted(duration: string)
  {
    ParseDuration(duration).Span? && ParseDuration(duration).seconds > 0
  }

  /** `/mute member:U <duration>` succeeds (for instance "30s"); when the timer fires it
      finds U still muted and lifts the mute. Exactly one mute and then one unmute are
      sent, the timer was set for the parsed number of seconds, and the registry ends
      empty with no task left. */
  method TimedMuteExpires(guild: GuildId, me: MemberId, u: MemberId, duration: string)
    returns (calls: seq<EditCall>, delay: nat, afterMute: map<Key, TaskId>, afterFire: map<Key, TaskId>, live: set<TaskId>)
    requires u != me && Accepted(duration)
    ensures afterMute == map[Key(guild, u) := 0]
    ensures delay == ParseDuration(duration).seconds
    ensures calls == [EditCall(Key(guild, u), true, EditOk), EditCall(Key(guild, u), false, EditOk)]
    ensures afterFire == map[] && live == {}
  {
    var bot := new Bot(me);
    var r1, mute := MuteUser(bot, guild, Unmuted(u), duration, EditOk, EditOk);
    afterMute := bot.timedMuteTasks;
    delay := bot.timers[0].delay;
    var r2, unmute := UnmuteAfterDelay(bot, 0, true, InGuild(Some(VoiceState(true, true))), EditOk);
    calls := [mute.value, unmute.value];
    afterFire, live := bot.timedMuteTasks, bot.pending;
  }

  /** `/mute U <first>` (say "1h") and then `/mute U <second>` (say "10m") while U is
      still muted: the second command is turned away and the first timer stays. */
  method RemuteWhileMuted(guild: GuildId, me: MemberId, u: MemberId, first: string, second: string)
    returns (blocked: CommandResult, tasks: map<Key, TaskId>, live: set<TaskId>)
    requires u != me && Accepted(first)
    ensures blocked == Rejected(AlreadyMuted)
    ensures tasks == map[Key(guild, u) := 0] && live == {0}
  {
    var bot := new Bot(me);
    var r1, c1 := MuteUser(bot, guild, Unmuted(u), first, EditOk, EditOk);
    var c2;
    blocked, c2 := MuteUser(bot, guild, Member(u, Some(VoiceState(true, true))), second, EditOk, EditOk);
    tasks, live := bot.timedMuteTasks, bot.pending;
  }

  /** `/mute U <first>` (say "1h"), then, after U was unmuted by hand in the client,
      `/mute U <second>` (say "10m"): the first timer is cancelled, exactly one entry
      remains and it is the second timer, set for the second duration. */
  method RemuteReplacesTimer(guild: GuildId, me: MemberId, u: MemberId, first: string, second: string)
    returns (tasks: map<Key, TaskId>, live: set<TaskId>, delay: nat)
    requires u != me && Accepted(first) && Accepted(second)
    ensures tasks == map[Key(guild, u) := 1]
    ensures live == {1}
    ensures delay == ParseDuration(second).seconds
  {
    var key := Key(guild, u);
    var bot := new Bot(me);
    var r1, c1 := MuteUser(bot, guild, Unmuted(u), first, EditOk, EditOk);
    assert TaskAt(bot.timedMuteTasks, key) == {0};
    var r2, c2 := MuteUser(bot, guild, Unmuted(u), second, EditOk, EditOk);
    tasks, live := bot.timedMuteTasks, bot.pending;
    delay := bot.timers[1].delay;
  }

  /** `/mute U <duration>` (say "5m"), then `/unmute U` before it expires: two edits in
      all, the entry is gone, and no task is left that could fire a third edit. */
  method ManualUnmuteCancels(guild: GuildId, me: MemberId, u: MemberId, duration: string)
    returns (calls: seq<EditCall>, tasks: map<Key, TaskId>, live: set<TaskId>)
    requires u != me && Accepted(duration)
    ensures calls == [EditCall(Key(guild, u), true, EditOk), EditCall(Key(guild, u), false, EditOk)]
    ensures tasks == map[] && live == {}
  {
    var bot := new Bot(me);
    var r1, mute := MuteUser(bot, guild, Unmuted(u), duration, EditOk, EditOk);
    assert TaskAt(bot.timedMuteTasks, Key(guild, u)) == {0};
    var r2, unmute := UnmuteUser(bot, guild, Member(u, Some(VoiceState(true, true))), EditOk);
    calls := [mute.value, unmute.value];
    tasks, live := bot.timedMuteTasks, bot.pending;
  }

  /** The channel of the `/mutechannel` run: the bot (id 0), three unmuted members
      and, in fourth place, a muted one. */
  function Channel(): seq<Member>
  {
    [Unmuted(0), Unmuted(1), Unmuted(2), Member(3, Some(VoiceState(true, true))), Unmuted(4)]
  }

  lemma ChannelCandidates()
    ensures ChannelMute.MuteCandidates(Channel(), 0) == [Unmuted(1), Unmuted(2), Unmuted(4)]
  {
    var snapshot := Channel();
    assert snapshot[..4] == [Unmuted(0), Unmuted(1), Unmuted(2), Member(3, Some(VoiceState(true, true)))];
    assert snapshot[..4][..3] == [Unmuted(0), Unmuted(1), Unmuted(2)];
    assert snapshot[..4][..3][..2] == [Unmuted(0), Unmuted(1)];
    assert snapshot[..4][..3][..2][..1] == [Unmuted(0)];
    assert ChannelMute.MuteCandidates([Unmuted(0)], 0) == [];
    assert ChannelMute.MuteCandidates(snapshot[..4][..3], 0) == [Unmuted(1), Unmuted(2)];
  }

  lemma CallsOfCandidates(guild: GuildId, outcome: MemberId -> EditOutcome)
    ensures Calls(guild, [Unmuted(1), Unmuted(2), Unmuted(4)], true, outcome)
         == [EditCall(Key(guild, 1), true, outcome(1)),
             EditCall(Key(guild, 2), true, outcome(2)),
             EditCall(Key(guild, 4), true, outcome(4))]
  {
  }

  /** `/mutechannel` on `Channel()`, everyone still in voice when reached: exactly the
      three unmuted members are attempted, in order, and the already-muted one is not
      counted. */
  method ChannelMuteSkipsMuted(guild: GuildId, voiceNow: MemberId -> Option<VoiceState>, outcome: MemberId -> EditOutcome)
    returns (report: BulkReport)
    requires forall id :: voiceNow(id).Some?
    ensures report.Completed? && report.attempted == 3
    ensures report.calls == [EditCall(Key(guild, 1), true, outcome(1)),
                             EditCall(Key(guild, 2), true, outcome(2)),
                             EditCall(Key(guild, 4), true, outcome(4))]
    ensures report.succeeded == CountOk(report.calls) && report.succeeded + |report.errors| == 3
  {
    var cands := [Unmuted(1), Unmuted(2), Unmuted(4)];
    ChannelCandidates();
    AttemptedAll(cands, ChannelMute.StillInVoice(cands, voiceNow));
    CallsOfCandidates(guild, outcome);
    report := ChannelMute.MuteChannel(guild, 0, Channel(), voiceNow, outcome);
  }
}
