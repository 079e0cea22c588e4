/** The dispatcher (backend/internal/bot/manager.go): it owns the enabled adapters,
    queues their events in a bounded FIFO, and fans each event out to storage, the
    live broadcast and the reply pipeline, routing a reply back to the adapter of
    the event's platform. Concurrent steps are taken one at a time: a blocking
    enqueue becomes a precondition that the queue has room, and each event's
    three consumers run in the order save, broadcast, reply. Storage, the language
    model, the clock and the adapters' I/O outcomes are inputs or logs. */
module Manager {
  import opened Wrappers
  import opened BotTypes
  import QQ
  import Discord

  /** Capacity of the event queue `msgChan`. */
  const QueueCapacity: nat := 100

  /** The bounds handed to `RandomDelay` before every language-model call. */
  const ReplyDelayMinMs: int := 500
  const ReplyDelayMaxMs: int := 3000

  /** The reply pipeline pauses at least half a second and less than three seconds. */
  lemma ReplyDelayBounds(draw: nat)
    requires draw < ReplyDelayMaxMs - ReplyDelayMinMs
    ensures RandomDelay(ReplyDelayMinMs, ReplyDelayMaxMs, draw).Some?
    ensures 500 <= RandomDelay(ReplyDelayMinMs, ReplyDelayMaxMs, draw).value < 3000
  {
  }

  /** The part of the configuration the dispatcher reads. */
  datatype BotConfig = BotConfig(
    qqEnabled: bool,
    qqWsUrl: string,
    discordEnabled: bool,
    discordToken: string,
    discordGuildId: string)

  /** A stored message row (`model.Message`): sender, text, media-kind name, time. */
  datatype Record = Record(sender: string, content: string, msgType: string, createdAt: int)

  /** One turn of the conversation handed to the language model. */
  datatype ChatTurn = ChatTurn(role: string, content: string)

  /** What the language-model call returns: a reply text or an error. */
  datatype LlmResult = Reply(text: string) | LlmError

  /** What the world supplies to the handling of one event: the model's answer,
      the send's timestamp, whether the adapter's I/O for the reply goes
      through, and the clock as `saveMessage` reads it and as `SendReply` reads
      it later, after the pause and the model call. */
  datatype ReplyInputs = ReplyInputs(llm: LlmResult, stamp: QQ.Int64, sendOk: bool, savedAt: int, repliedAt: int)

  /** `saveMessage`: the row a received event is stored as. */
  function StoredRecord(e: MessageEvent, now: int): (r: Record)
    ensures r.sender == e.username && r.content == e.content && r.createdAt == now
    ensures ParseMsgType(r.msgType) == Some(e.msgType)
  {
    MsgTypeNamesRoundTrip(e.msgType);
    Record(e.username, e.content, MsgTypeName(e.msgType), now)
  }

  /** The row stored for the bot's own reply. */
  function BotRecord(content: string, now: int): Record
  {
    Record("bot", content, "text", now)
  }

  /** The conversation sent to the model: one user turn holding the event's text. */
  function Prompt(e: MessageEvent): (p: seq<ChatTurn>)
    ensures |p| == 1 && p[0].role == "user" && p[0].content == e.content
  {
    [ChatTurn("user", e.content)]
  }

  /** The prompts of a run of events, one per event, in order. */
  function Prompts(es: seq<MessageEvent>): (ps: seq<seq<ChatTurn>>)
    decreases |es|
  {
    if |es| == 0 then [] else Prompts(es[..|es| - 1]) + [Prompt(es[|es| - 1])]
  }

  /** Which adapter `SendReply` calls. */
  datatype Route = ToQQ | ToDiscord | NoAdapter

  /** The `switch` of `SendReply`: the platform tag picks the adapter, and an
      unknown tag or a disabled adapter picks none. */
  function RouteOf(platform: string, hasQQ: bool, hasDiscord: bool): (r: Route)
    ensures r == ToQQ <==> platform == QQPlatform && hasQQ
    ensures r == ToDiscord <==> platform == DiscordPlatform && hasDiscord
  {
    if platform == QQPlatform then (if hasQQ then ToQQ else NoAdapter)
    else if platform == DiscordPlatform then (if hasDiscord then ToDiscord else NoAdapter)
    else NoAdapter
  }

  /** The adapter state a reply depends on; sending does not change it. */
  datatype AdapterView = AdapterView(
    hasQQ: bool,
    qqConnected: bool,
    qqConn: QQ.ConnState,
    hasDiscord: bool,
    discordSession: Option<Discord.Session>)

  /** The `err` that `SendReply` ends with: the called adapter's, or nil when no
      adapter is called. */
  function ReplyOutcome(v: AdapterView, route: Route, sendOk: bool): Outcome
  {
    match route
    case ToQQ => QQ.SendOutcome(v.qqConnected, v.qqConn, sendOk)
    case ToDiscord => Discord.ApiOutcome(sendOk)
    case NoAdapter => Ok
  }

  /** A reply to `platform` can be handed to the Discord adapter only once its
      session exists. */
  predicate CanReplyTo(v: AdapterView, platform: string)
  {
    RouteOf(platform, v.hasQQ, v.hasDiscord) == ToDiscord ==> v.discordSession.Some?
  }

  /** What gets appended to storage, to the QQ socket and to the Discord channel-send log. */
  datatype Effects = Effects(
    saved: seq<Record>,
    qqWrites: seq<QQ.OneBotAction>,
    discordSends: seq<Discord.ChannelSend>)
  {
    /** These effects followed by `next`. */
    function Then(next: Effects): Effects
    {
      Effects(saved + next.saved, qqWrites + next.qqWrites, discordSends + next.discordSends)
    }
  }

  const NoEffects: Effects := Effects([], [], [])

  /** Appending effects in two steps is appending them at once. */
  lemma ThenAssociative(a: Effects, b: Effects, c: Effects)
    ensures a.Then(b).Then(c) == a.Then(b.Then(c))
  {
    assert (a.saved + b.saved) + c.saved == a.saved + (b.saved + c.saved);
    assert (a.qqWrites + b.qqWrites) + c.qqWrites == a.qqWrites + (b.qqWrites + c.qqWrites);
    assert (a.discordSends + b.discordSends) + c.discordSends == a.discordSends + (b.discordSends + c.discordSends);
  }

  /** The effects of `SendReply(platform, targetId, content, isGroup)`. */
  function ReplyEffects(
    v: AdapterView, platform: string, targetId: string, content: string, isGroup: bool,
    stamp: QQ.Int64, sendOk: bool, now: int): Effects
  {
    var route := RouteOf(platform, v.hasQQ, v.hasDiscord);
    var err := ReplyOutcome(v, route, sendOk);
    Effects(
      if err.Ok? then [BotRecord(content, now)] else [],
      if route == ToQQ && err.Ok? then [QQ.Envelope(targetId, content, isGroup, stamp)] else [],
      if route == ToDiscord then [Discord.ChannelSend(targetId, content)] else [])
  }

  /** The effects of processing one event: its row, then the reply (none when the
      model fails), sent to the event's own platform, target and kind. */
  function EventEffects(v: AdapterView, e: MessageEvent, inputs: ReplyInputs): Effects
  {
    var reply :=
      match inputs.llm
      case Reply(text) => ReplyEffects(v, e.platform, e.platformId, text, e.isGroup, inputs.stamp, inputs.sendOk, inputs.repliedAt)
      case LlmError => NoEffects;
    Effects([StoredRecord(e, inputs.savedAt)], [], []).Then(reply)
  }

  /** The effects of processing a run of events in queue order. */
  function AllEffects(v: AdapterView, es: seq<MessageEvent>, ins: seq<ReplyInputs>): Effects
    requires |es| == |ins|
    decreases |es|
  {
    if |es| == 0 then NoEffects
    else AllEffects(v, es[..|es| - 1], ins[..|ins| - 1]).Then(EventEffects(v, es[|es| - 1], ins[|ins| - 1]))
  }

  /** Processing one more event of a run appends that event's effects. */
  lemma AllEffectsStep(v: AdapterView, es: seq<MessageEvent>, ins: seq<ReplyInputs>, k: nat)
    requires |es| == |ins| && k < |es|
    ensures AllEffects(v, es[..k + 1], ins[..k + 1]) == AllEffects(v, es[..k], ins[..k]).Then(EventEffects(v, es[k], ins[k]))
  {
    assert es[..k + 1][..k] == es[..k] && ins[..k + 1][..k] == ins[..k];
  }

  /** A reply reaches at most one adapter, and only the adapter of its platform. */
  lemma RoutingIsExclusive(
    v: AdapterView, platform: string, targetId: string, content: string, isGroup: bool,
    stamp: QQ.Int64, sendOk: bool, now: int)
    ensures var fx := ReplyEffects(v, platform, targetId, content, isGroup, stamp, sendOk, now);
      && (fx.qqWrites != [] ==> platform == QQPlatform && v.hasQQ && fx.discordSends == [])
      && (fx.discordSends != [] ==> platform == DiscordPlatform && v.hasDiscord && fx.qqWrites == [])
  {
  }

  /** A reply for an unknown platform or a disabled adapter is sent nowhere, yet
      stored as the bot's message, because the error stays nil. */
  lemma UnroutableReplyIsStillStored(
    v: AdapterView, platform: string, targetId: string, content: string, isGroup: bool,
    stamp: QQ.Int64, sendOk: bool, now: int)
    requires RouteOf(platform, v.hasQQ, v.hasDiscord) == NoAdapter
    ensures ReplyEffects(v, platform, targetId, content, isGroup, stamp, sendOk, now)
      == Effects([BotRecord(content, now)], [], [])
  {
  }

  /** A failed send stores nothing and writes nothing to the QQ socket. */
  lemma FailedSendStoresNothing(
    v: AdapterView, platform: string, targetId: string, content: string, isGroup: bool,
    stamp: QQ.Int64, sendOk: bool, now: int)
    requires ReplyOutcome(v, RouteOf(platform, v.hasQQ, v.hasDiscord), sendOk).Fail?
    ensures ReplyEffects(v, platform, targetId, content, isGroup, stamp, sendOk, now).saved == []
    ensures ReplyEffects(v, platform, targetId, content, isGroup, stamp, sendOk, now).qqWrites == []
  {
  }

  /** A reply that reaches an adapter is addressed to the conversation the event
      came from. */
  lemma ReplyGoesBackWhereEventCameFrom(v: AdapterView, e: MessageEvent, inputs: ReplyInputs)
    requires inputs.llm.Reply?
    ensures var fx := EventEffects(v, e, inputs);
      && (fx.qqWrites != [] ==>
            |fx.qqWrites| == 1 && QQ.Destination(fx.qqWrites[0]) == Some((e.platformId, e.isGroup))
            && fx.qqWrites[0].params["message"] == inputs.llm.text)
      && (fx.discordSends != [] ==>
            fx.discordSends == [Discord.ChannelSend(e.platformId, inputs.llm.text)])
  {
  }

  /** Every processed event is stored exactly once, and at most one bot reply
      is stored for it. */
  lemma {:induction false} StoredRowsPerEvent(v: AdapterView, es: seq<MessageEvent>, ins: seq<ReplyInputs>)
    requires |es| == |ins|
    ensures |es| <= |AllEffects(v, es, ins).saved| <= 2 * |es|
    decreases |es|
  {
    if |es| > 0 {
      StoredRowsPerEvent(v, es[..|es| - 1], ins[..|ins| - 1]);
    }
  }

  /** Processing the `k`-th event of a run stores that event's own row, once, and
      after it at most the bot's reply: none when the model fails, and otherwise
      one exactly when the send reports no error. */
  lemma EachEventStoredOnce(v: AdapterView, es: seq<MessageEvent>, ins: seq<ReplyInputs>, k: nat)
    requires |es| == |ins| && k < |es|
    ensures var before := AllEffects(v, es[..k], ins[..k]).saved;
      var after := AllEffects(v, es[..k + 1], ins[..k + 1]).saved;
      var row := StoredRecord(es[k], ins[k].savedAt);
      && (ins[k].llm.LlmError? ==> after == before + [row])
      && (ins[k].llm.Reply? ==>
            var err := ReplyOutcome(v, RouteOf(es[k].platform, v.hasQQ, v.hasDiscord), ins[k].sendOk);
            after == before + [row] + (if err.Ok? then [BotRecord(ins[k].llm.text, ins[k].repliedAt)] else []))
  {
    AllEffectsStep(v, es, ins, k);
  }

  /** The rows `saveMessage` writes for a run of events, in order. */
  function StoredRows(es: seq<MessageEvent>, ins: seq<ReplyInputs>): (rows: seq<Record>)
    requires |es| == |ins|
    ensures |rows| == |es|
    ensures forall i :: 0 <= i < |es| ==> rows[i] == StoredRecord(es[i], ins[i].savedAt)
    decreases |es|
  {
    if |es| == 0 then []
    else StoredRows(es[..|es| - 1], ins[..|ins| - 1]) + [StoredRecord(es[|es| - 1], ins[|ins| - 1].savedAt)]
  }

  /** When the model fails, an event's only effect is its own row. */
  lemma ModelFailureStoresOnlyTheEvent(v: AdapterView, e: MessageEvent, inputs: ReplyInputs)
    requires inputs.llm.LlmError?
    ensures EventEffects(v, e, inputs) == Effects([StoredRecord(e, inputs.savedAt)], [], [])
  {
  }

  /** When the model fails on every event, nothing is sent anywhere and the
      stored rows are exactly the events' own, in queue order. */
  lemma {:induction false} ModelFailureSendsNothing(v: AdapterView, es: seq<MessageEvent>, ins: seq<ReplyInputs>)
    requires |es| == |ins|
    requires forall i :: 0 <= i < |ins| ==> ins[i].llm.LlmError?
    ensures AllEffects(v, es, ins) == Effects(StoredRows(es, ins), [], [])
    decreases |es|
  {
    if |es| > 0 {
      var n := |es| - 1;
      assert forall i :: 0 <= i < n ==> ins[..n][i] == ins[i];
      ModelFailureSendsNothing(v, es[..n], ins[..n]);
      ModelFailureStoresOnlyTheEvent(v, es[n], ins[n]);
      var row := StoredRecord(es[n], ins[n].savedAt);
      var before := Effects(StoredRows(es[..n], ins[..n]), [], []);
      assert AllEffects(v, es, ins) == before.Then(Effects([row], [], []));
      assert before.Then(Effects([row], [], [])) == Effects(StoredRows(es[..n], ins[..n]) + [row], [], []);
    }
  }

  /** What the dispatch loop works on: the queue, what has been broadcast, the
      prompts sent to the model, the effects on storage and the adapters, and the
      adapter state replies depend on. */
  datatype DispatchState = DispatchState(
    queue: seq<MessageEvent>,
    broadcasts: seq<MessageEvent>,
    prompts: seq<seq<ChatTurn>>,
    logs: Effects,
    view: AdapterView)

  /** One turn of `processLoop`: the head of the queue is stored, broadcast
      when a callback is set, and answered. */
  function NextState(st: DispatchState, hasBroadcast: bool, inputs: ReplyInputs): DispatchState
    requires |st.queue| > 0
  {
    var e := st.queue[0];
    DispatchState(
      st.queue[1..],
      st.broadcasts + (if hasBroadcast then [e] else []),
      st.prompts + [Prompt(e)],
      st.logs.Then(EventEffects(st.view, e, inputs)),
      st.view)
  }

  /** `processLoop` after as many turns as there are `ins`. */
  function RunStates(st: DispatchState, hasBroadcast: bool, ins: seq<ReplyInputs>): (r: DispatchState)
    requires |ins| <= |st.queue|
    ensures |r.queue| == |st.queue| - |ins|
    decreases |ins|
  {
    if |ins| == 0 then st
    else NextState(RunStates(st, hasBroadcast, ins[..|ins| - 1]), hasBroadcast, ins[|ins| - 1])
  }

  /** One more turn of the dispatch loop. */
  lemma RunStatesStep(st: DispatchState, hasBroadcast: bool, ins: seq<ReplyInputs>, k: nat)
    requires k < |ins| <= |st.queue|
    ensures RunStates(st, hasBroadcast, ins[..k + 1])
      == NextState(RunStates(st, hasBroadcast, ins[..k]), hasBroadcast, ins[k])
  {
    assert ins[..k + 1][..k] == ins[..k];
  }

  /** The dispatch loop takes events from the head of the queue, and nothing it
      does changes the adapter state replies depend on. */
  lemma {:induction false} RunDrainsQueueFromHead(st: DispatchState, hasBroadcast: bool, ins: seq<ReplyInputs>)
    requires |ins| <= |st.queue|
    ensures RunStates(st, hasBroadcast, ins).queue == st.queue[|ins|..]
    ensures RunStates(st, hasBroadcast, ins).view == st.view
    decreases |ins|
  {
    if |ins| > 0 {
      RunDrainsQueueFromHead(st, hasBroadcast, ins[..|ins| - 1]);
    }
  }

  /** Events are broadcast (when a callback is set) in the order they were queued,
      each once. */
  lemma {:induction false} RunBroadcastsInQueueOrder(st: DispatchState, hasBroadcast: bool, ins: seq<ReplyInputs>)
    requires |ins| <= |st.queue|
    ensures RunStates(st, hasBroadcast, ins).broadcasts
      == st.broadcasts + (if hasBroadcast then st.queue[..|ins|] else [])
    decreases |ins|
  {
    if |ins| > 0 {
      var n := |ins| - 1;
      RunBroadcastsInQueueOrder(st, hasBroadcast, ins[..n]);
      RunDrainsQueueFromHead(st, hasBroadcast, ins[..n]);
      assert st.queue[..n + 1] == st.queue[..n] + [st.queue[n]];
    }
  }

  /** Every event is handed to the model once, in the order it was queued. */
  lemma {:induction false} RunPromptsInQueueOrder(st: DispatchState, hasBroadcast: bool, ins: seq<ReplyInputs>)
    requires |ins| <= |st.queue|
    ensures RunStates(st, hasBroadcast, ins).prompts == st.prompts + Prompts(st.queue[..|ins|])
    decreases |ins|
  {
    if |ins| > 0 {
      var n := |ins| - 1;
      RunPromptsInQueueOrder(st, hasBroadcast, ins[..n]);
      RunDrainsQueueFromHead(st, hasBroadcast, ins[..n]);
      var es := st.queue[..n + 1];
      assert es[..n] == st.queue[..n] && es[n] == st.queue[n];
      assert Prompts(es) == Prompts(st.queue[..n]) + [Prompt(st.queue[n])];
    }
  }

  /** The effects of a run are those of its events processed one after another,
      in queue order. */
  lemma {:induction false} RunEffectsInQueueOrder(st: DispatchState, hasBroadcast: bool, ins: seq<ReplyInputs>)
    requires |ins| <= |st.queue|
    ensures RunStates(st, hasBroadcast, ins).logs == st.logs.Then(AllEffects(st.view, st.queue[..|ins|], ins))
    decreases |ins|
  {
    if |ins| > 0 {
      var n := |ins| - 1;
      RunEffectsInQueueOrder(st, hasBroadcast, ins[..n]);
      RunDrainsQueueFromHead(st, hasBroadcast, ins[..n]);
      AllEffectsStep(st.view, st.queue[..n + 1], ins, n);
      assert st.queue[..n + 1][..n] == st.queue[..n];
      assert ins[..n + 1] == ins;
      ThenAssociative(st.logs, AllEffects(st.view, st.queue[..n], ins[..n]), EventEffects(st.view, st.queue[n], ins[n]));
    }
  }

  /** The dispatcher: the two adapters (absent when disabled), whether a broadcast
      callback is set, the event queue, and the logs of what it has broadcast,
      stored and asked the model. */
  class BotManager {
    const qqAdapter: QQ.QQBot?
    const discordAdapter: Discord.DiscordBot?
    const hasBroadcast: bool
    var queue: seq<MessageEvent>
    var broadcasts: seq<MessageEvent>
    var saved: seq<Record>
    var prompts: seq<seq<ChatTurn>>

    /** The queue stays within its capacity and the QQ adapter stays consistent. */
    ghost predicate Valid()
      reads this, qqAdapter
    {
      |queue| <= QueueCapacity && (qqAdapter != null ==> qqAdapter.Valid())
    }

    /** The adapter state replies depend on. */
    function View(): AdapterView
      reads this, qqAdapter, discordAdapter
    {
      AdapterView(
        qqAdapter != null,
        qqAdapter != null && qqAdapter.isConnected,
        if qqAdapter != null then qqAdapter.conn else QQ.NoConn,
        discordAdapter != null,
        if discordAdapter != null then discordAdapter.session else None)
    }

    /** Storage, the QQ socket log and the Discord channel-send log together. */
    function Logs(): Effects
      reads this, qqAdapter, discordAdapter
    {
      Effects(
        saved,
        if qqAdapter != null then qqAdapter.written else [],
        if discordAdapter != null then discordAdapter.sent else [])
    }

    /** `InitManager`: an adapter exists exactly for each enabled platform; the
        queue and the logs start empty. */
    constructor (cfg: BotConfig, hasBroadcast: bool)
      ensures Valid()
      ensures (qqAdapter != null <==> cfg.qqEnabled) && (discordAdapter != null <==> cfg.discordEnabled)
      ensures qqAdapter != null ==>
        fresh(qqAdapter) && qqAdapter.wsUrl == cfg.qqWsUrl
        && qqAdapter.conn == QQ.NoConn && !qqAdapter.isConnected && qqAdapter.written == []
      ensures discordAdapter != null ==>
        fresh(discordAdapter) && discordAdapter.token == cfg.discordToken
        && discordAdapter.guildId == cfg.discordGuildId
        && discordAdapter.session == None && discordAdapter.sent == []
      ensures this.hasBroadcast == hasBroadcast
      ensures queue == [] && broadcasts == [] && saved == [] && prompts == []
    {
      if cfg.qqEnabled {
        qqAdapter := new QQ.QQBot(cfg.qqWsUrl);
      } else {
        qqAdapter := null;
      }
      if cfg.discordEnabled {
        discordAdapter := new Discord.DiscordBot(cfg.discordToken, cfg.discordGuildId);
      } else {
        discordAdapter := null;
      }
      this.hasBroadcast := hasBroadcast;
      queue, broadcasts, saved, prompts := [], [], [], [];
    }

    /** `Start`, for the adapter whose start returns: the Discord adapter opens
        its session (`openOk` says whether `Open` succeeds). The QQ supervisor,
        which never returns, is run by `RunQQ`; the dispatch loop by `ProcessLoop`. */
    method Start(openOk: bool)
      requires Valid()
      modifies discordAdapter
      ensures Valid()
      ensures discordAdapter != null ==>
        discordAdapter.session == Some(Discord.Session("Bot " + discordAdapter.token, openOk))
        && discordAdapter.sent == old(discordAdapter.sent)
    {
      if discordAdapter != null {
        var _ := discordAdapter.Start(openOk);
      }
    }

    /** `HandleEvent`: appends at the tail of the queue; the source blocks while
        the queue is full, so the queue must have room. */
    method HandleEvent(e: MessageEvent)
      requires Valid() && |queue| < QueueCapacity
      modifies this`queue
      ensures Valid() && queue == old(queue) + [e]
    {
      queue := queue + [e];
    }

    /** The QQ adapter wired to `HandleEvent`: its supervisor runs over `trace` and
        every event it hands on is queued, in read order. */
    method RunQQ(trace: seq<QQ.Io>)
      requires Valid() && qqAdapter != null
      requires QQ.Fits(QQ.Supervisor(false, qqAdapter.conn, qqAdapter.isConnected), trace)
      requires |queue| + |QQ.Handled(trace)| <= QueueCapacity
      modifies this`queue, qqAdapter
      ensures Valid()
      ensures queue == old(queue) + QQ.Handled(trace)
      ensures qqAdapter.written == old(qqAdapter.written)
      ensures var s := QQ.Run(old(QQ.Supervisor(false, qqAdapter.conn, qqAdapter.isConnected)), trace);
        qqAdapter.conn == s.conn && qqAdapter.isConnected == s.isConnected
    {
      var events := qqAdapter.Start(trace);
      var i := 0;
      while i < |events|
        invariant 0 <= i <= |events|
        modifies this`queue
        invariant Valid()
        invariant queue == old(queue) + events[..i]
      {
        HandleEvent(events[i]);
        i := i + 1;
      }
      assert events[..i] == events;
    }

    /** The Discord adapter's callback wired to `HandleEvent`: an accepted message is
        queued, a dropped one is not. `selfId` is the bot's own user ID. Only an
        accepted message reaches the blocking enqueue, so only it needs room. */
    method OnDiscordMessage(selfId: string, m: Discord.MessageCreate)
      requires Valid() && discordAdapter != null
      requires Discord.OnMessage(selfId, discordAdapter.guildId, m).Some? ==> |queue| < QueueCapacity
      modifies this`queue
      ensures Valid()
      ensures queue == old(queue) + (match Discord.OnMessage(selfId, discordAdapter.guildId, m)
                                     case Some(e) => [e]
                                     case None => [])
    {
      var e := Discord.OnMessage(selfId, discordAdapter.guildId, m);
      if e.Some? {
        HandleEvent(e.value);
      }
    }

    /** `saveMessage`: one row for the event. */
    method SaveMessage(e: MessageEvent, now: int)
      modifies this`saved
      ensures saved == old(saved) + [StoredRecord(e, now)]
    {
      saved := saved + [StoredRecord(e, now)];
    }

    /** `SendReply`: calls the adapter the platform selects, if any, and stores the
        bot's reply exactly when the resulting error is nil. */
    method SendReply(
      platform: string, targetId: string, content: string, isGroup: bool,
      stamp: QQ.Int64, sendOk: bool, now: int)
      returns (err: Outcome)
      requires Valid() && CanReplyTo(View(), platform)
      modifies this`saved, qqAdapter, discordAdapter
      ensures Valid() && View() == old(View())
      ensures err == ReplyOutcome(old(View()), RouteOf(platform, qqAdapter != null, discordAdapter != null), sendOk)
      ensures Logs() == old(Logs()).Then(ReplyEffects(old(View()), platform, targetId, content, isGroup, stamp, sendOk, now))
    {
      err := Ok;
      var route := RouteOf(platform, qqAdapter != null, discordAdapter != null);
      if route == ToQQ {
        err := qqAdapter.SendMessage(targetId, content, isGroup, stamp, sendOk);
      } else if route == ToDiscord {
        err := discordAdapter.SendMessage(targetId, content, isGroup, sendOk);
      }
      if err.Ok? {
        saved := saved + [BotRecord(content, now)];
      }
    }

    /** `handleLLMReply`: asks the model with the event's text as the one user turn;
        on an error nothing is sent, otherwise the answer is sent back to the
        event's platform, target and kind. The random pause is not modelled. */
    method HandleLLMReply(e: MessageEvent, inputs: ReplyInputs)
      requires Valid() && CanReplyTo(View(), e.platform)
      modifies this`saved, this`prompts, qqAdapter, discordAdapter
      ensures Valid() && View() == old(View())
      ensures prompts == old(prompts) + [Prompt(e)]
      ensures Logs() == old(Logs()).Then(
        match inputs.llm
        case Reply(text) => ReplyEffects(old(View()), e.platform, e.platformId, text, e.isGroup, inputs.stamp, inputs.sendOk, inputs.repliedAt)
        case LlmError => NoEffects)
    {
      prompts := prompts + [Prompt(e)];
      match inputs.llm {
        case LlmError =>
        case Reply(text) =>
          var _ := SendReply(e.platform, e.platformId, text, e.isGroup, inputs.stamp, inputs.sendOk, inputs.repliedAt);
      }
    }

    /** The part of the dispatcher's state the dispatch loop works on. */
    function State(): DispatchState
      reads this, qqAdapter, discordAdapter
    {
      DispatchState(queue, broadcasts, prompts, Logs(), View())
    }

    /** One turn of `processLoop`: takes the head of the queue, stores it,
        broadcasts it when a callback is set, and runs the reply pipeline. */
    method ProcessNext(inputs: ReplyInputs) returns (e: MessageEvent)
      requires Valid() && |queue| > 0 && CanReplyTo(View(), queue[0].platform)
      modifies this, qqAdapter, discordAdapter
      ensures Valid()
      ensures e == old(queue)[0]
      ensures State() == NextState(old(State()), hasBroadcast, inputs)
    {
      ghost var logs0 := Logs();
      ghost var v0 := View();
      e := queue[0];
      queue := queue[1..];
      SaveMessage(e, inputs.savedAt);
      assert Logs() == logs0.Then(Effects([StoredRecord(e, inputs.savedAt)], [], []));
      if hasBroadcast {
        broadcasts := broadcasts + [e];
      }
      ghost var logs1 := Logs();
      HandleLLMReply(e, inputs);
      ghost var reply :=
        match inputs.llm
        case Reply(text) => ReplyEffects(v0, e.platform, e.platformId, text, e.isGroup, inputs.stamp, inputs.sendOk, inputs.repliedAt)
        case LlmError => NoEffects;
      assert Logs() == logs1.Then(reply);
      ThenAssociative(logs0, Effects([StoredRecord(e, inputs.savedAt)], [], []), reply);
    }

    /** The turn of `processLoop` that handles the `i`-th queued event. */
    method Turn(ghost s0: DispatchState, inputs: seq<ReplyInputs>, i: nat)
      requires Valid() && i < |inputs| <= |s0.queue|
      requires State() == RunStates(s0, hasBroadcast, inputs[..i])
      requires CanReplyTo(s0.view, s0.queue[i].platform)
      modifies this, qqAdapter, discordAdapter
      ensures Valid() && State() == RunStates(s0, hasBroadcast, inputs[..i + 1])
    {
      assert queue[0] == s0.queue[i] && View() == s0.view by {
        RunDrainsQueueFromHead(s0, hasBroadcast, inputs[..i]);
      }
      var _ := ProcessNext(inputs[i]);
      RunStatesStep(s0, hasBroadcast, inputs, i);
    }

    /** `processLoop`, over as many queued events as there are `inputs`; what that
        does to the queue, the broadcasts, the prompts and the effects is
        stated by the `Run...InQueueOrder` lemmas. */
    method ProcessLoop(inputs: seq<ReplyInputs>)
      requires Valid() && |inputs| <= |queue|
      requires forall i :: 0 <= i < |inputs| ==> CanReplyTo(View(), queue[i].platform)
      modifies this, qqAdapter, discordAdapter
      ensures Valid()
      ensures State() == RunStates(old(State()), hasBroadcast, inputs)
    {
      ghost var s0 := State();
      var i := 0;
      while i < |inputs|
        invariant 0 <= i <= |inputs|
        invariant Valid()
        invariant State() == RunStates(s0, hasBroadcast, inputs[..i])
        invariant forall j :: i <= j < |inputs| ==> CanReplyTo(s0.view, s0.queue[j].platform)
      {
        Turn(s0, inputs, i);
        i := i + 1;
      }
      assert inputs[..i] == inputs;
    }
  }
}
