/** The older whole-channel `/mute` and `/unmute` commands defined in bot.py. They filter
    the channel's member list without guarding against a member that has no voice state,
    then attempt every candidate, with no re-check inside the loop. They take no
    timed-mute registry: unlike `/unmutechannel`, a bulk unmute here leaves any timer in
    place. */
module BotCommands {
  import opened Gateway
  import opened BulkTally
  import ChannelMute

  /** Every member other than the bot has a voice state, so `m.voice.mute` can be read
      for all of them; otherwise the list comprehension raises AttributeError. */
  predicate VoiceReadable(snapshot: seq<Member>, me: MemberId)
  {
    forall m | m in snapshot && m.id != me :: m.voice.Some?
  }

  /** Once every voice state can be read, the filters `not m.voice.mute` and
      `m.voice.mute` pick the same members, in the same order, as the guarded filters of
      the channel cog. */
  lemma {:induction false} SameCandidates(snapshot: seq<Member>, me: MemberId)
    requires VoiceReadable(snapshot, me)
    ensures LegacyMuteCandidates(snapshot, me) == ChannelMute.MuteCandidates(snapshot, me)
    ensures LegacyUnmuteCandidates(snapshot, me) == ChannelMute.UnmuteCandidates(snapshot, me)
    decreases |snapshot|
  {
    if snapshot != [] {
      SameCandidates(snapshot[..|snapshot| - 1], me);
    }
  }

  /** `[m for m in channel.members if m != guild.me and not m.voice.mute]` */
  function LegacyMuteCandidates(snapshot: seq<Member>, me: MemberId): (r: seq<Member>)
    requires VoiceReadable(snapshot, me)
    ensures forall m :: m in r <==> m in snapshot && m.id != me && !m.voice.value.muted
    decreases |snapshot|
  {
    if snapshot == [] then []
    else
      var last := snapshot[|snapshot| - 1];
      LegacyMuteCandidates(snapshot[..|snapshot| - 1], me) + (if last.id != me && !last.voice.value.muted then [last] else [])
  }

  /** `[m for m in channel.members if m != guild.me and m.voice.mute]` */
  function LegacyUnmuteCandidates(snapshot: seq<Member>, me: MemberId): (r: seq<Member>)
    requires VoiceReadable(snapshot, me)
    ensures forall m :: m in r <==> m in snapshot && m.id != me && m.voice.value.muted
    decreases |snapshot|
  {
    if snapshot == [] then []
    else
      var last := snapshot[|snapshot| - 1];
      LegacyUnmuteCandidates(snapshot[..|snapshot| - 1], me) + (if last.id != me && last.voice.value.muted then [last] else [])
  }

  /** Every candidate, for the loops that never re-check. */
  function Everyone(cands: seq<Member>): set<Member>
  {
    set m | m in cands
  }

  /** The loop shared by both commands: one edit per candidate, counting successes and
      appending one error line per failure. */
  method EditAll(guild: GuildId, cands: seq<Member>, mute: bool, outcome: MemberId -> EditOutcome)
    returns (count: nat, errors: seq<BulkError>, calls: seq<EditCall>)
    ensures Tally(count, errors, calls) == Run(guild, cands, mute, Everyone(cands), outcome)
    ensures calls == Calls(guild, cands, mute, outcome)
    ensures count == CountOk(calls) && count + |errors| == |cands|
  {
    count, errors, calls := 0, [], [];
    for i := 0 to |cands|
      invariant Tally(count, errors, calls) == Run(guild, cands[..i], mute, Everyone(cands), outcome)
    {
      var m := cands[i];
      RunStep(guild, cands, i, mute, Everyone(cands), outcome);
      var o := outcome(m.id);
      calls := calls + [EditCall(Key(guild, m.id), mute, o)];
      match o {
        case EditOk => count := count + 1;
        case Forbidden => errors := errors + [NoPermission(m.id)];
        case _ => errors := errors + [EditError(m.id, o)];
      }
    }
    assert cands[..|cands|] == cands;
    AttemptedAll(cands, Everyone(cands));
    RunCalls(guild, cands, mute, Everyone(cands), outcome);
    RunCountsSuccesses(guild, cands, mute, Everyone(cands), outcome);
  }

  /** bot.py `mute`: abort if a member's voice state cannot be read, return early when no
      member needs muting, otherwise attempt every unmuted member other than the bot. */
  method Mute(guild: GuildId, me: MemberId, snapshot: seq<Member>, outcome: MemberId -> EditOutcome)
    returns (report: BulkReport)
    ensures !VoiceReadable(snapshot, me) <==> report == Aborted
    ensures report == NothingToDo <==> VoiceReadable(snapshot, me) && LegacyMuteCandidates(snapshot, me) == []
    ensures VoiceReadable(snapshot, me) ==>
      var cands := LegacyMuteCandidates(snapshot, me);
      var t := Run(guild, cands, true, Everyone(cands), outcome);
      report == if cands == [] then NothingToDo else Completed(|cands|, t.succeeded, t.errors, t.calls)
    ensures report.Completed? ==>
      && VoiceReadable(snapshot, me)
      && report.attempted == |LegacyMuteCandidates(snapshot, me)| > 0
      && report.calls == Calls(guild, LegacyMuteCandidates(snapshot, me), true, outcome)
      && report.succeeded == CountOk(report.calls)
      && report.succeeded + |report.errors| == report.attempted
  {
    if !VoiceReadable(snapshot, me) {
      return Aborted;
    }
    var cands := LegacyMuteCandidates(snapshot, me);
    if cands == [] {
      return NothingToDo;
    }
    var count, errors, calls := EditAll(guild, cands, true, outcome);
    report := Completed(|cands|, count, errors, calls);
  }

  /** bot.py `unmute`: abort if a member's voice state cannot be read, return early when
      no member is muted, otherwise attempt every muted member other than the bot. */
  method Unmute(guild: GuildId, me: MemberId, snapshot: seq<Member>, outcome: MemberId -> EditOutcome)
    returns (report: BulkReport)
    ensures !VoiceReadable(snapshot, me) <==> report == Aborted
    ensures report == NothingToDo <==> VoiceReadable(snapshot, me) && LegacyUnmuteCandidates(snapshot, me) == []
    ensures VoiceReadable(snapshot, me) ==>
      var cands := LegacyUnmuteCandidates(snapshot, me);
      var t := Run(guild, cands, false, Everyone(cands), outcome);
      report == if cands == [] then NothingToDo else Completed(|cands|, t.succeeded, t.errors, t.calls)
    ensures report.Completed? ==>
      && VoiceReadable(snapshot, me)
      && report.attempted == |LegacyUnmuteCandidates(snapshot, me)| > 0
      && report.calls == Calls(guild, LegacyUnmuteCandidates(snapshot, me), false, outcome)
      && report.succeeded == CountOk(report.calls)
      && report.succeeded + |report.errors| == report.attempted
  {
    if !VoiceReadable(snapshot, me) {
      return Aborted;
    }
    var cands := LegacyUnmuteCandidates(snapshot, me);
    if cands == [] {
      return NothingToDo;
    }
    var count, errors, calls := EditAll(guild, cands, false, outcome);
    report := Completed(|cands|, count, errors, calls);
  }
}
