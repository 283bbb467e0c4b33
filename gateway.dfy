/** What the moderation core sees of the chat gateway: identifiers, a member's voice
    state, and the outcome of the one mutation it issues (setting a member's server mute). */
module Gateway {

  datatype Option<+T> = None | Some(value: T)

  type GuildId = int
  type MemberId = int

  /** The key of the timed-mute registry: a member within a guild. */
  datatype Key = Key(guild: GuildId, member: MemberId)

  /** A member's voice state: whether it names a channel, and the server-mute flag. */
  datatype VoiceState = VoiceState(inChannel: bool, muted: bool)

  /** A guild member as a handler reads it: its id and its voice state, if any. */
  datatype Member = Member(id: MemberId, voice: Option<VoiceState>)

  /** The result of looking a member up in the guild's member cache. */
  datatype Presence = NotInGuild | InGuild(voice: Option<VoiceState>)

  /** How a call to `member.edit(mute=...)` ended: success, a permission refusal,
      another HTTP failure, or any other exception. */
  datatype EditOutcome = EditOk | Forbidden | HttpError | OtherError

  /** One call to `member.edit`, with the flag it sets and how it ended. */
  datatype EditCall = EditCall(key: Key, mute: bool, outcome: EditOutcome)

  /** `member.voice and member.voice.channel`: the member is connected to a voice channel. */
  predicate InVoiceChannel(m: Member)
  {
    m.voice.Some? && m.voice.value.inChannel
  }

  /** `m.voice and m.voice.mute`: the member has a voice state whose mute flag is set. */
  predicate IsMuted(voice: Option<VoiceState>)
  {
    voice.Some? && voice.value.muted
  }
}
