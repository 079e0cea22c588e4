/** The platform-neutral event model every adapter produces, the error value of
    an adapter's send operations, and the bounds of the randomized reply delay
    (backend/internal/bot/types.go). */
module BotTypes {
  import opened Wrappers

  /** Platform tags carried in `MessageEvent.platform`. */
  const QQPlatform: string := "qq"
  const DiscordPlatform: string := "discord"

  /** The two defined media kinds of a message. */
  datatype MsgType = Text | Image

  /** The string a media kind stands for, `string(MsgType)`. */
  function MsgTypeName(t: MsgType): (s: string)
  {
    match t
    case Text => "text"
    case Image => "image"
  }

  /** Reads a media-kind name back; only the two defined names are kinds. */
  function ParseMsgType(s: string): (r: Option<MsgType>)
    ensures r.Some? <==> s == "text" || s == "image"
    ensures r.Some? ==> MsgTypeName(r.value) == s
  {
    if s == "text" then Some(Text)
    else if s == "image" then Some(Image)
    else None
  }

  /** The two kinds have distinct names, and each name reads back as its kind. */
  lemma MsgTypeNamesRoundTrip(t: MsgType)
    ensures ParseMsgType(MsgTypeName(t)) == Some(t)
    ensures MsgTypeName(Text) != MsgTypeName(Image)
  {
  }

  /** One inbound chat message, normalised across platforms. `platformId` is where
      a reply goes (group, channel or user); the event is never changed after an
      adapter builds it. */
  datatype MessageEvent = MessageEvent(
    platform: string,
    platformId: string,
    userId: string,
    username: string,
    content: string,
    msgType: MsgType,
    isGroup: bool)

  /** Why a send operation failed: the QQ adapter is offline, a socket write
      failed, or the Discord API call failed. */
  datatype SendError = NotConnected | WriteFailed | ApiFailed

  /** The `error` result of `SendMessage` and `SendImage`: `Ok` is a nil error. */
  datatype Outcome = Ok | Fail(error: SendError)

  /** `RandomDelay(minMs, maxMs)`: `None` when it returns at once, otherwise the
      number of milliseconds it sleeps. `draw` is the value `rand.Intn(maxMs - minMs)`
      returned, which that call keeps below its argument. */
  function RandomDelay(minMs: int, maxMs: int, draw: nat): (delay: Option<int>)
    requires minMs < maxMs ==> draw < maxMs - minMs
    ensures delay.None? <==> minMs >= maxMs
    ensures delay.Some? ==> minMs <= delay.value < maxMs
  {
    if minMs >= maxMs then None else Some(draw + minMs)
  }

  /** Every delay in `[minMs, maxMs)` is one some draw produces. */
  lemma RandomDelayCoversRange(minMs: int, maxMs: int, ms: int)
    requires minMs <= ms < maxMs
    ensures exists draw: nat :: draw < maxMs - minMs && RandomDelay(minMs, maxMs, draw) == Some(ms)
  {
    var draw: nat := ms - minMs;
    assert RandomDelay(minMs, maxMs, draw) == Some(ms);
  }
}
