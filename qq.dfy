/** The QQ adapter, which speaks OneBot 11 over a websocket (backend/internal/bot/qq.go):
    the reading of inbound event reports, the outbound action envelope, image
    sending through a CQ code, and the reconnecting supervisor with its
    `isConnected` flag. Socket I/O outcomes are inputs; the socket is
    represented by its state and by the log of envelopes written to it. */
module QQ {
  import opened Wrappers
  import opened BotTypes
  import Decimal

  /** Go's `int64`, the type of OneBot's numeric identifiers. */
  type Int64 = x: int | -0x8000_0000_0000_0000 <= x < 0x8000_0000_0000_0000

  /** The fields of a OneBot 11 event report that the adapter reads. A field absent
      from the JSON object decodes to "" or 0. */
  datatype OneBotEvent = OneBotEvent(
    postType: string,
    messageType: string,
    subType: string,
    userId: Int64,
    groupId: Int64,
    rawMessage: string,
    senderNickname: string)

  /** `parseMessage`: `frame` is what decoding the raw frame gave (`None` when
      `json.Unmarshal` failed); the result is the event handed to the handler,
      `None` when the handler is not called. */
  function ParseMessage(frame: Option<OneBotEvent>): (r: Option<MessageEvent>)
    ensures r.Some? <==> frame.Some? && frame.value.postType == "message"
    ensures r.Some? ==> r.value.platform == QQPlatform && r.value.msgType == Text
    ensures r.Some? ==> (r.value.isGroup <==> frame.value.messageType == "group")
    ensures r.Some? ==>
      Decimal.ParseInt(r.value.platformId)
        == Some(if r.value.isGroup then frame.value.groupId as int else frame.value.userId as int)
    ensures r.Some? ==> Decimal.ParseInt(r.value.userId) == Some(frame.value.userId as int)
    ensures r.Some? ==> r.value.username == frame.value.senderNickname
    ensures r.Some? ==> r.value.content == frame.value.rawMessage
  {
    match frame
    case None => None
    case Some(ev) =>
      if ev.postType != "message" then None
      else
        var isGroup := ev.messageType == "group";
        var target: int := if isGroup then ev.groupId else ev.userId;
        Decimal.FormatIntRoundTrip(target);
        Decimal.FormatIntRoundTrip(ev.userId);
        Some(MessageEvent(
          QQPlatform,
          Decimal.FormatInt(target),
          Decimal.FormatInt(ev.userId),
          ev.senderNickname,
          ev.rawMessage,
          Text,
          isGroup))
  }

  /** A group report from user 456 in group 123 replies to "123"; a private
      report from user 456 replies to "456". */
  lemma GroupAndPrivateTargets(nick: string, text: string)
    ensures ParseMessage(Some(OneBotEvent("message", "group", "normal", 456, 123, text, nick)))
      == Some(MessageEvent(QQPlatform, "123", "456", nick, text, Text, true))
    ensures ParseMessage(Some(OneBotEvent("message", "private", "friend", 456, 0, text, nick)))
      == Some(MessageEvent(QQPlatform, "456", "456", nick, text, Text, false))
  {
    assert Decimal.FormatInt(123) == "123" by {
      assert Decimal.Digits(12) == "12" by { assert Decimal.Digits(1) == "1"; }
    }
    assert Decimal.FormatInt(456) == "456" by {
      assert Decimal.Digits(45) == "45" by { assert Decimal.Digits(4) == "4"; }
    }
  }

  /** An OneBot API call: action name, parameters, correlation token. */
  datatype OneBotAction = OneBotAction(action: string, params: map<string, string>, echo: string)

  const PrivateAction: string := "send_private_msg"
  const GroupAction: string := "send_group_msg"

  /** The parameter that names the destination of a send. */
  function TargetKey(isGroup: bool): string
  {
    if isGroup then "group_id" else "user_id"
  }

  /** How the OneBot end reads the destination of a send action: the target and
      whether it is a group, or `None` for an envelope that names none. */
  function Destination(a: OneBotAction): Option<(string, bool)>
  {
    if a.action == GroupAction && "group_id" in a.params then Some((a.params["group_id"], true))
    else if a.action == PrivateAction && "user_id" in a.params then Some((a.params["user_id"], false))
    else None
  }

  /** The envelope `SendMessage` writes; `stamp` is the `time.Now().UnixNano()`
      that the correlation token is made from. */
  function Envelope(targetId: string, content: string, isGroup: bool, stamp: Int64): (a: OneBotAction)
    ensures Destination(a) == Some((targetId, isGroup))
    ensures a.params.Keys == {TargetKey(isGroup), "message"}
    ensures a.params["message"] == content
  {
    var params :=
      if isGroup then map["group_id" := targetId, "message" := content]
      else map["user_id" := targetId, "message" := content];
    OneBotAction(if isGroup then GroupAction else PrivateAction, params, "send_" + Decimal.FormatInt(stamp))
  }

  const CQImagePrefix: string := "[CQ:image,file="

  /** Reads the file of a CQ image code, or `None` if the text is not one. */
  function ImageFile(code: string): Option<string>
  {
    var n := |CQImagePrefix|;
    if |code| > n && code[..n] == CQImagePrefix && code[|code| - 1] == ']' then Some(code[n..|code| - 1])
    else None
  }

  /** The CQ code `SendImage` sends in place of an image. */
  function CQImage(url: string): (code: string)
    ensures ImageFile(code) == Some(url)
  {
    var code := CQImagePrefix + url + "]";
    assert code[..|CQImagePrefix|] == CQImagePrefix;
    assert code[|CQImagePrefix|..|code| - 1] == url;
    code
  }

  /** The state of the adapter's socket handle. */
  datatype ConnState = NoConn | Open | Closed

  /** The error `SendMessage` returns, given the `isConnected` flag, the socket,
      and whether the socket write itself goes through. */
  function SendOutcome(isConnected: bool, conn: ConnState, writeOk: bool): (r: Outcome)
    ensures r.Ok? <==> isConnected && conn == Open && writeOk
    ensures !isConnected ==> r == Fail(NotConnected)
  {
    if !isConnected then Fail(NotConnected)
    else if conn == Open && writeOk then Ok
    else Fail(WriteFailed)
  }

  /** One I/O outcome met by the supervisor in `Start`: a failed or successful dial
      while connecting, or a frame (as decoded) or a read error while reading. */
  datatype Io = DialFailed | Dialed | Frame(decoded: Option<OneBotEvent>) | ReadFailed

  /** Where the supervisor stands: inside the read loop or not, the socket, the flag. */
  datatype Supervisor = Supervisor(reading: bool, conn: ConnState, isConnected: bool)

  /** The I/O outcomes the supervisor can meet where it stands. */
  predicate Expects(reading: bool, io: Io)
  {
    if reading then io.Frame? || io.ReadFailed? else io.DialFailed? || io.Dialed?
  }

  /** One step of `Start`: a failed dial retries with nothing changed, a dial
      sets the flag and enters the read loop, a frame changes no state, a read
      error clears the flag and leaves the read loop. */
  function Step(s: Supervisor, io: Io): Supervisor
  {
    match io
    case DialFailed => s
    case Dialed => Supervisor(true, Open, true)
    case Frame(_) => s
    case ReadFailed => s.(reading := false, isConnected := false)
  }

  /** Every outcome of `trace` is one the supervisor can meet when it comes. */
  ghost predicate Fits(s: Supervisor, trace: seq<Io>)
    decreases |trace|
  {
    |trace| == 0 || (Expects(s.reading, trace[0]) && Fits(Step(s, trace[0]), trace[1..]))
  }

  /** The supervisor's state after `trace`. */
  function Run(s: Supervisor, trace: seq<Io>): Supervisor
    decreases |trace|
  {
    if |trace| == 0 then s else Run(Step(s, trace[0]), trace[1..])
  }

  /** The event one frame hands to the handler, if any. */
  function FrameEvents(io: Io): seq<MessageEvent>
  {
    match io
    case Frame(f) => (match ParseMessage(f) case Some(e) => [e] case None => [])
    case _ => []
  }

  /** The handler calls made along `trace`, in read order. */
  function Handled(trace: seq<Io>): seq<MessageEvent>
    decreases |trace|
  {
    if |trace| == 0 then [] else FrameEvents(trace[0]) + Handled(trace[1..])
  }

  /** `n` consecutive failed dials. */
  function Retries(n: nat): (t: seq<Io>)
    ensures |t| == n && forall i :: 0 <= i < n ==> t[i] == DialFailed
  {
    if n == 0 then [] else [DialFailed] + Retries(n - 1)
  }

  /** After any number of failed dials followed by one that succeeds, the
      supervisor is in the read loop with an open socket and the flag set. */
  lemma {:induction false} RetryUntilConnected(s: Supervisor, n: nat)
    requires !s.reading
    ensures Fits(s, Retries(n) + [Dialed])
    ensures Run(s, Retries(n) + [Dialed]) == Supervisor(true, Open, true)
    decreases n
  {
    var t := Retries(n) + [Dialed];
    if n == 0 {
      assert t[1..] == [];
    } else {
      RetryUntilConnected(s, n - 1);
      assert t[1..] == Retries(n - 1) + [Dialed];
    }
  }

  /** Running two traces one after the other is running their concatenation. */
  lemma {:induction false} RunAppend(s: Supervisor, t: seq<Io>, u: seq<Io>)
    ensures Run(s, t + u) == Run(Run(s, t), u)
    ensures Fits(s, t + u) <==> Fits(s, t) && Fits(Run(s, t), u)
    decreases |t|
  {
    if |t| == 0 {
      assert t + u == u;
    } else {
      RunAppend(Step(s, t[0]), t[1..], u);
      assert (t + u)[1..] == t[1..] + u;
    }
  }

  /** Whatever came before, a read error leaves the flag cleared and the
      supervisor back at connecting. */
  lemma ReadErrorDisconnects(s: Supervisor, t: seq<Io>)
    requires Fits(s, t + [ReadFailed])
    ensures !Run(s, t + [ReadFailed]).isConnected && !Run(s, t + [ReadFailed]).reading
  {
    RunAppend(s, t, [ReadFailed]);
  }

  /** Started with the flag matching the loop it is in, the supervisor keeps the
      flag set exactly while it is inside the read loop. */
  lemma {:induction false} FlagTracksReadLoop(s: Supervisor, t: seq<Io>)
    requires s.isConnected == s.reading
    ensures Run(s, t).isConnected == Run(s, t).reading
    decreases |t|
  {
    if |t| > 0 {
      FlagTracksReadLoop(Step(s, t[0]), t[1..]);
    }
  }

  /** Every event the supervisor hands on is a QQ text event. */
  lemma {:induction false} HandledAreQQText(t: seq<Io>)
    ensures forall i :: 0 <= i < |Handled(t)| ==>
      Handled(t)[i].platform == QQPlatform && Handled(t)[i].msgType == Text
    decreases |t|
  {
    if |t| > 0 {
      HandledAreQQText(t[1..]);
    }
  }

  /** The QQ adapter: its socket, the `isConnected` flag, and the envelopes
      written so far (the `sync.Mutex` makes each write one atomic append). */
  class QQBot {
    const wsUrl: string
    var conn: ConnState
    var isConnected: bool
    var written: seq<OneBotAction>

    /** The flag is never set without a socket behind it. */
    ghost predicate Valid()
      reads this
    {
      isConnected ==> conn != NoConn
    }

    /** `NewQQBot`: no socket, offline, nothing written. */
    constructor (wsUrl: string)
      ensures Valid()
      ensures this.wsUrl == wsUrl && conn == NoConn && !isConnected && written == []
    {
      this.wsUrl := wsUrl;
      conn := NoConn;
      isConnected := false;
      written := [];
    }

    /** `connect`: `dialed` says whether parsing the URL and dialing both succeed.
        Success installs a fresh open socket and sets the flag; failure changes nothing. */
    method Connect(dialed: bool) returns (ok: bool)
      requires Valid()
      modifies this`conn, this`isConnected
      ensures Valid() && ok == dialed
      ensures ok ==> conn == Open && isConnected
      ensures !ok ==> conn == old(conn) && isConnected == old(isConnected)
    {
      if !dialed {
        return false;
      }
      conn := Open;
      isConnected := true;
      ok := true;
    }

    /** The read loop's error branch: the flag is cleared; the socket is left as it is. */
    method ReadFailed()
      requires Valid()
      modifies this`isConnected
      ensures Valid() && !isConnected && conn == old(conn)
    {
      isConnected := false;
    }

    /** `Stop`: closes the socket if there is one and leaves the flag alone. */
    method Stop()
      requires Valid()
      modifies this`conn
      ensures Valid()
      ensures conn == (if old(conn) == NoConn then NoConn else Closed)
      ensures isConnected == old(isConnected) && written == old(written)
    {
      if conn != NoConn {
        conn := Closed;
      }
    }

    /** `SendMessage`: offline it fails at once and writes nothing; otherwise it
        writes exactly one envelope, which goes through when the socket is open
        and `writeOk` holds. */
    method SendMessage(targetId: string, content: string, isGroup: bool, stamp: Int64, writeOk: bool)
      returns (r: Outcome)
      requires Valid()
      modifies this`written
      ensures r == SendOutcome(isConnected, conn, writeOk)
      ensures written == if r.Ok? then old(written) + [Envelope(targetId, content, isGroup, stamp)]
                         else old(written)
    {
      if !isConnected {
        return Fail(NotConnected);
      }
      var payload := Envelope(targetId, content, isGroup, stamp);
      if conn == Open && writeOk {
        written := written + [payload];
        r := Ok;
      } else {
        r := Fail(WriteFailed);
      }
    }

    /** `SendImage`: the text path, with the CQ image code of `url` as the text. */
    method SendImage(targetId: string, url: string, isGroup: bool, stamp: Int64, writeOk: bool)
      returns (r: Outcome)
      requires Valid()
      modifies this`written
      ensures r == SendOutcome(isConnected, conn, writeOk)
      ensures written == if r.Ok? then old(written) + [Envelope(targetId, CQImage(url), isGroup, stamp)]
                         else old(written)
    {
      r := SendMessage(targetId, CQImage(url), isGroup, stamp, writeOk);
    }

    /** One pass through the body of `Start`'s loops: meets the I/O outcome `io`
        where the supervisor stands and returns whether it is now reading, with
        the handler call the outcome caused, if any. */
    method Meet(io: Io, reading: bool) returns (reading': bool, events: seq<MessageEvent>)
      requires Valid() && Expects(reading, io)
      modifies this`conn, this`isConnected
      ensures Valid()
      ensures Supervisor(reading', conn, isConnected) == Step(old(Supervisor(reading, conn, isConnected)), io)
      ensures events == FrameEvents(io)
    {
      reading', events := reading, [];
      match io {
        case DialFailed =>
          var _ := Connect(false);
        case Dialed =>
          var _ := Connect(true);
          reading' := true;
        case Frame(f) =>
          var e := ParseMessage(f);
          if e.Some? {
            events := [e.value];
          }
        case ReadFailed =>
          ReadFailed();
          reading' := false;
      }
    }

    /** `Start`, run over the I/O outcomes of `trace`: the outer loop dials until a
        dial succeeds, the inner loop reads frames until a read fails. Returns the
        handler calls made, in read order. */
    method Start(trace: seq<Io>) returns (handled: seq<MessageEvent>)
      requires Valid()
      requires Fits(Supervisor(false, conn, isConnected), trace)
      modifies this`conn, this`isConnected
      ensures Valid() && written == old(written)
      ensures conn == Run(old(Supervisor(false, conn, isConnected)), trace).conn
      ensures isConnected == Run(old(Supervisor(false, conn, isConnected)), trace).isConnected
      ensures handled == Handled(trace)
    {
      ghost var start := Supervisor(false, conn, isConnected);
      var reading := false;
      handled := [];
      var i := 0;
      while i < |trace|
        invariant 0 <= i <= |trace|
        invariant Valid()
        invariant Fits(Supervisor(reading, conn, isConnected), trace[i..])
        invariant Run(Supervisor(reading, conn, isConnected), trace[i..]) == Run(start, trace)
        invariant handled + Handled(trace[i..]) == Handled(trace)
      {
        assert trace[i..][1..] == trace[i + 1..];
        var events;
        reading, events := Meet(trace[i], reading);
        handled := handled + events;
        i := i + 1;
      }
      assert trace[i..] == [];
    }
  }
}
