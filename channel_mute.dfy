/** The whole-channel commands of cogs/channel_mute.py: `/mutechannel` and
    `/unmutechannel`. Each filters the channel's member list, then edits candidates one
    at a time. `voiceNow(id)` is the voice state the loop reads for member `id` when it
    reaches that member (voice-state events may land while earlier edits are awaited);
    `outcome(id)` is how the edit on member `id` ends. */
module ChannelMute {
  import opened Gateway
  import opened BulkTally
  import opened TimedMutes

  /** `[m for m in channel.members if m != guild.me and (not m.voice or not m.voice.mute)]` */
  function MuteCandidates(snapshot: seq<Member>, me: MemberId): (r: seq<Member>)
    ensures forall m :: m in r <==> m in snapshot && m.id != me && !IsMuted(m.voice)
    ensures |r| <= |snapshot|
    decreases |snapshot|
  {
    if snapshot == [] then []
    else
      var last := snapshot[|snapshot| - 1];
      MuteCandidates(snapshot[..|snapshot| - 1], me) + (if last.id != me && !IsMuted(last.voice) then [last] else [])
  }

  /** `[m for m in channel.members if m != guild.me and m.voice and m.voice.mute]` */
  function UnmuteCandidates(snapshot: seq<Member>, me: MemberId): (r: seq<Member>)
    ensures forall m :: m in r <==> m in snapshot && m.id != me && IsMuted(m.voice)
    ensures |r| <= |snapshot|
    decreases |snapshot|
  {
    if snapshot == [] then []
    else
      var last := snapshot[|snapshot| - 1];
      UnmuteCandidates(snapshot[..|snapshot| - 1], me) + (if last.id != me && IsMuted(last.voice) then [last] else [])
  }

  /** The candidates `/mutechannel` still edits: those with a voice state when reached. */
  function StillInVoice(cands: seq<Member>, voiceNow: MemberId -> Option<VoiceState>): set<Member>
  {
    set m | m in cands && voiceNow(m.id).Some?
  }

  /** The candidates `/unmutechannel` still edits: those still in voice and muted when reached. */
  function StillMuted(cands: seq<Member>, voiceNow: MemberId -> Option<VoiceState>): set<Member>
  {
    set m | m in cands && IsMuted(voiceNow(m.id))
  }

  lemma RemoveMore<K, V>(m: map<K, V>, gone: set<K>, more: set<K>)
    ensures m - gone - more == m - (gone + more)
  {
  }

  /** `mutechannel`: return early when no member needs muting; otherwise one mute
      attempt per candidate that still has a voice state, counting successes and
      collecting one error line per failure or departed member. The timed-mute
      registry is not an input: this command neither reads nor changes it. */
  method MuteChannel(guild: GuildId, me: MemberId, snapshot: seq<Member>,
                     voiceNow: MemberId -> Option<VoiceState>, outcome: MemberId -> EditOutcome)
    returns (report: BulkReport)
    ensures var cands := MuteCandidates(snapshot, me);
      var t := Run(guild, cands, true, StillInVoice(cands, voiceNow), outcome);
      report == if cands == [] then NothingToDo else Completed(|cands|, t.succeeded, t.errors, t.calls)
    ensures report.Completed? ==>
      && report.attempted == |MuteCandidates(snapshot, me)| > 0
      && report.succeeded + |report.errors| == report.attempted
      && report.succeeded == CountOk(report.calls) <= |report.calls| <= report.attempted
      && report.calls == Calls(guild, Attempted(MuteCandidates(snapshot, me), StillInVoice(MuteCandidates(snapshot, me), voiceNow)), true, outcome)
  {
    var cands := MuteCandidates(snapshot, me);
    if cands == [] {
      return NothingToDo;
    }
    var mutedCount, errors, calls := MuteEach(guild, cands, voiceNow, outcome);
    RunCalls(guild, cands, true, StillInVoice(cands, voiceNow), outcome);
    RunCountsSuccesses(guild, cands, true, StillInVoice(cands, voiceNow), outcome);
    report := Completed(|cands|, mutedCount, errors, calls);
  }

  /** The loop of `mutechannel` over its candidates. */
  method MuteEach(guild: GuildId, cands: seq<Member>,
                  voiceNow: MemberId -> Option<VoiceState>, outcome: MemberId -> EditOutcome)
    returns (mutedCount: nat, errors: seq<BulkError>, calls: seq<EditCall>)
    ensures Tally(mutedCount, errors, calls) == Run(guild, cands, true, StillInVoice(cands, voiceNow), outcome)
  {
    ghost var eligible := StillInVoice(cands, voiceNow);
    mutedCount, errors, calls := 0, [], [];
    for i := 0 to |cands|
      invariant Tally(mutedCount, errors, calls) == Run(guild, cands[..i], true, eligible, outcome)
    {
      var m := cands[i];
      RunStep(guild, cands, i, true, eligible, outcome);
      if voiceNow(m.id).Some? {
        var o := outcome(m.id);
        calls := calls + [EditCall(Key(guild, m.id), true, o)];
        match o {
          case EditOk => mutedCount := mutedCount + 1;
          case Forbidden => errors := errors + [NoPermission(m.id)];
          case _ => errors := errors + [EditError(m.id, o)];
        }
      } else {
        errors := errors + [NoLongerEligible(m.id)];
      }
    }
    assert cands[..|cands|] == cands;
  }

  /** `unmutechannel`: return early when no member is muted; otherwise one unmute attempt
      per candidate still in voice and muted, and after each successful unmute the
      member's timed-mute entry is cancelled and removed. A failed edit leaves the
      registry alone. */
  method UnmuteChannel(bot: Bot, guild: GuildId, snapshot: seq<Member>,
                       voiceNow: MemberId -> Option<VoiceState>, outcome: MemberId -> EditOutcome)
    returns (report: BulkReport)
    requires bot.Valid()
    modifies bot
    ensures bot.Valid()
    ensures var cands := UnmuteCandidates(snapshot, bot.me);
      var t := Run(guild, cands, false, StillMuted(cands, voiceNow), outcome);
      report == if cands == [] then NothingToDo else Completed(|cands|, t.succeeded, t.errors, t.calls)
    ensures report.Completed? ==>
      && report.attempted == |UnmuteCandidates(snapshot, bot.me)| > 0
      && report.succeeded + |report.errors| == report.attempted
      && report.succeeded == CountOk(report.calls) <= |report.calls| <= report.attempted
      && report.calls == Calls(guild, Attempted(UnmuteCandidates(snapshot, bot.me), StillMuted(UnmuteCandidates(snapshot, bot.me), voiceNow)), false, outcome)
    ensures bot.timedMuteTasks == old(bot.timedMuteTasks) - (if report.Completed? then Succeeded(report.calls) else {})
    ensures bot.timers == old(bot.timers) && bot.nextTask == old(bot.nextTask)
  {
    var cands := UnmuteCandidates(snapshot, bot.me);
    if cands == [] {
      return NothingToDo;
    }
    var unmutedCount, errors, calls := UnmuteEach(bot, guild, cands, voiceNow, outcome);
    RunCalls(guild, cands, false, StillMuted(cands, voiceNow), outcome);
    RunCountsSuccesses(guild, cands, false, StillMuted(cands, voiceNow), outcome);
    report := Completed(|cands|, unmutedCount, errors, calls);
  }

  /** The loop of `unmutechannel` over its candidates: exactly the members whose unmute
      succeeded lose their registry entry. */
  method UnmuteEach(bot: Bot, guild: GuildId, cands: seq<Member>,
                    voiceNow: MemberId -> Option<VoiceState>, outcome: MemberId -> EditOutcome)
    returns (unmutedCount: nat, errors: seq<BulkError>, calls: seq<EditCall>)
    requires bot.Valid()
    modifies bot
    ensures bot.Valid()
    ensures Tally(unmutedCount, errors, calls) == Run(guild, cands, false, StillMuted(cands, voiceNow), outcome)
    ensures bot.timedMuteTasks == old(bot.timedMuteTasks) - Succeeded(calls)
    ensures bot.timers == old(bot.timers) && bot.nextTask == old(bot.nextTask)
  {
    ghost var eligible := StillMuted(cands, voiceNow);
    unmutedCount, errors, calls := 0, [], [];
    ghost var unmuted: set<Key> := {};
    for i := 0 to |cands|
      invariant bot.Valid()
      invariant Tally(unmutedCount, errors, calls) == Run(guild, cands[..i], false, eligible, outcome)
      invariant unmuted == Succeeded(calls)
      invariant bot.timedMuteTasks == old(bot.timedMuteTasks) - unmuted
      invariant bot.timers == old(bot.timers) && bot.nextTask == old(bot.nextTask)
    {
      var m := cands[i];
      RunStep(guild, cands, i, false, eligible, outcome);
      var step := UnmuteMember(bot, guild, m, voiceNow(m.id), outcome(m.id));
      SucceededThen(calls, step.calls);
      RemoveMore(old(bot.timedMuteTasks), unmuted, Succeeded(step.calls));
      unmuted := unmuted + Succeeded(step.calls);
      unmutedCount, errors, calls := unmutedCount + step.succeeded, errors + step.errors, calls + step.calls;
    }
    assert cands[..|cands|] == cands;
  }

  /** The body of the `unmutechannel` loop for one candidate, whose voice state is now
      `now`: re-check it, issue the unmute, and on success cancel and drop the member's
      timed-mute entry. */
  method UnmuteMember(bot: Bot, guild: GuildId, m: Member, now: Option<VoiceState>, o: EditOutcome)
    returns (step: Tally)
    requires bot.Valid()
    modifies bot
    ensures bot.Valid()
    ensures step == Step(guild, m, false, IsMuted(now), o)
    ensures bot.timedMuteTasks == old(bot.timedMuteTasks) - Succeeded(step.calls)
    ensures bot.timers == old(bot.timers) && bot.nextTask == old(bot.nextTask)
  {
    if now.Some? && now.value.muted {
      var key := Key(guild, m.id);
      var calls := [EditCall(key, false, o)];
      assert calls[..0] == [];
      match o {
        case EditOk =>
          bot.CancelAndRemove(key);
          step := Tally(1, [], calls);
        case Forbidden => step := Tally(0, [NoPermission(m.id)], calls);
        case _ => step := Tally(0, [EditError(m.id, o)], calls);
      }
    } else {
      step := Tally(0, [NoLongerEligible(m.id)], []);
    }
  }
}
