/** The Discord adapter (backend/internal/bot/discord.go): the filter that turns a
    gateway message into an event or drops it, and the sends, each of which is one
    channel-send API call. The gateway session is represented by its state and by
    the log of channel-send calls made through it. */
module Discord {
  import opened Wrappers
  import opened BotTypes

  /** The fields of a gateway `MessageCreate` that the adapter reads. `guildId`
      is "" for a direct message. */
  datatype MessageCreate = MessageCreate(
    authorId: string,
    authorUsername: string,
    guildId: string,
    channelId: string,
    content: string)

  /** `onMessage`: the event handed to the handler, or `None` when the message is
      dropped. `selfId` is the bot's own user ID from the session state;
      `restrictGuild` is the configured guild ("" for none). */
  function OnMessage(selfId: string, restrictGuild: string, m: MessageCreate): (r: Option<MessageEvent>)
    ensures r.Some? <==> m.authorId != selfId && (restrictGuild == "" || m.guildId == restrictGuild)
    ensures r.Some? ==> r.value.platform == DiscordPlatform && r.value.msgType == Text
    ensures r.Some? ==> (r.value.isGroup <==> m.guildId != "")
    ensures r.Some? ==> r.value.platformId == m.channelId && r.value.content == m.content
    ensures r.Some? ==> r.value.userId == m.authorId && r.value.username == m.authorUsername
  {
    if m.authorId == selfId then None
    else if restrictGuild != "" && m.guildId != restrictGuild then None
    else Some(MessageEvent(DiscordPlatform, m.channelId, m.authorId, m.authorUsername, m.content, Text, m.guildId != ""))
  }

  /** The bot never answers itself: its own messages are dropped whatever the
      guild restriction. */
  lemma OwnMessagesDropped(selfId: string, restrictGuild: string, m: MessageCreate)
    requires m.authorId == selfId
    ensures OnMessage(selfId, restrictGuild, m) == None
  {
  }

  /** Under a guild restriction every accepted message comes from that guild, so it
      is a group message; direct messages are all dropped. */
  lemma RestrictionAdmitsOnlyThatGuild(selfId: string, restrictGuild: string, m: MessageCreate)
    requires restrictGuild != ""
    ensures OnMessage(selfId, restrictGuild, m).Some? ==>
      m.guildId == restrictGuild && OnMessage(selfId, restrictGuild, m).value.isGroup
    ensures m.guildId == "" ==> OnMessage(selfId, restrictGuild, m) == None
  {
  }

  /** Without a restriction, the only filter is the one on the bot's own messages. */
  lemma NoRestrictionOnlySelfFilter(selfId: string, m: MessageCreate)
    ensures OnMessage(selfId, "", m).Some? <==> m.authorId != selfId
  {
  }

  /** One `ChannelMessageSend(channelId, text)` call. */
  datatype ChannelSend = ChannelSend(channelId: string, text: string)

  /** A `discordgo` session: the authorization it was made with and whether its
      gateway connection is open. */
  datatype Session = Session(auth: string, open: bool)

  /** The outcome of a send: the API call's own result. */
  function ApiOutcome(apiOk: bool): (r: Outcome)
    ensures r.Ok? <==> apiOk
    ensures r.Fail? ==> r.error == ApiFailed
  {
    if apiOk then Ok else Fail(ApiFailed)
  }

  /** The Discord adapter: its configuration, its session (none before `Start`)
      and every channel-send call it has made. */
  class DiscordBot {
    const token: string
    const guildId: string
    var session: Option<Session>
    var sent: seq<ChannelSend>

    /** `NewDiscordBot`: no session yet, nothing sent. */
    constructor (token: string, guildId: string)
      ensures this.token == token && this.guildId == guildId
      ensures session == None && sent == []
    {
      this.token := token;
      this.guildId := guildId;
      session := None;
      sent := [];
    }

    /** `Start`: makes a session authorized as "Bot <token>" and opens it;
        `openOk` says whether `Open` succeeds. The session stays set either way,
        and the result is the error of `Open`. */
    method Start(openOk: bool) returns (r: bool)
      modifies this`session
      ensures session == Some(Session("Bot " + token, openOk))
      ensures r == openOk
    {
      session := Some(Session("Bot " + token, openOk));
      r := openOk;
    }

    /** `Stop`: closes the session if there is one. */
    method Stop()
      modifies this`session
      ensures session == if old(session).Some? then Some(old(session).value.(open := false)) else None
    {
      if session.Some? {
        session := Some(session.value.(open := false));
      }
    }

    /** `SendMessage`: exactly one channel send of `content` to `targetId`;
        `isGroup` plays no part. The source dereferences the session, so one must exist. */
    method SendMessage(targetId: string, content: string, isGroup: bool, apiOk: bool) returns (r: Outcome)
      requires session.Some?
      modifies this`sent
      ensures sent == old(sent) + [ChannelSend(targetId, content)]
      ensures r == ApiOutcome(apiOk)
    {
      sent := sent + [ChannelSend(targetId, content)];
      r := ApiOutcome(apiOk);
    }

    /** `SendImage`: one channel send of the bare URL, for the platform's link preview. */
    method SendImage(targetId: string, imageUrl: string, isGroup: bool, apiOk: bool) returns (r: Outcome)
      requires session.Some?
      modifies this`sent
      ensures sent == old(sent) + [ChannelSend(targetId, imageUrl)]
      ensures r == ApiOutcome(apiOk)
    {
      sent := sent + [ChannelSend(targetId, imageUrl)];
      r := ApiOutcome(apiOk);
    }
  }
}
