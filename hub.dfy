/** The live-console WebSocket hub (backend/internal/api/websocket.go): the set of
    registered console clients, each with a bounded outbound queue, the broadcast
    that offers a message to every queue and evicts the clients that cannot take
    it, and the write pump that drains a queue onto the client's socket, packing
    everything queued at that moment into one text frame. The hub's goroutine
    and each pump are taken one step at a time; socket outcomes are inputs. */
module Hub {
  import opened Wrappers

  newtype byte = x: int | 0 <= x < 256

  /** A serialized message, as `[]byte`. */
  type Bytes = seq<byte>

  /** Capacity of every client's outbound queue `Send`. */
  const SendCapacity: nat := 256

  /** The messages of `ms` back to back, with nothing between them. */
  function Concat(ms: seq<Bytes>): Bytes
    decreases |ms|
  {
    if |ms| == 0 then [] else Concat(ms[..|ms| - 1]) + ms[|ms| - 1]
  }

  /** Concatenating two runs of messages is concatenating their concatenations. */
  lemma {:induction false} ConcatAppend(a: seq<Bytes>, b: seq<Bytes>)
    ensures Concat(a + b) == Concat(a) + Concat(b)
    decreases |b|
  {
    if |b| == 0 {
      assert a + b == a;
    } else {
      var n := |b| - 1;
      assert (a + b)[..|a + b| - 1] == a + b[..n];
      assert (a + b)[|a + b| - 1] == b[n];
      assert Concat(b) == Concat(b[..n]) + b[n];
      ConcatAppend(a, b[..n]);
    }
  }

  /** The first `k` messages of a batch are, byte for byte, the start of its
      frame: batching keeps queue order. */
  lemma {:induction false} ConcatPrefix(ms: seq<Bytes>, k: nat)
    requires k <= |ms|
    ensures |Concat(ms[..k])| <= |Concat(ms)|
    ensures Concat(ms)[..|Concat(ms[..k])|] == Concat(ms[..k])
  {
    assert ms == ms[..k] + ms[k..];
    ConcatAppend(ms[..k], ms[k..]);
  }

  /** Frame boundaries do not survive batching: two messages written into one
      frame give the same frame as the single message made of both, so a reader
      of the frame cannot tell where the first message ends. */
  lemma BatchHidesBoundaries(a: Bytes, b: Bytes)
    ensures Concat([a, b]) == Concat([a + b])
  {
    assert [a, b][..1] == [a];
    assert [a + b][..0] == [] && [a][..0] == [];
  }

  /** One connected console: its outbound queue, whether the hub has closed that
      queue, the text frames its pump has written, whether the pump has sent the
      close frame, and whether the pump has ended (closing the socket). */
  class Client {
    var send: seq<Bytes>
    var closed: bool
    var frames: seq<Bytes>
    var closeFrameSent: bool
    var pumpDone: bool

    /** The client `WSHandler` makes for an upgraded connection: an empty queue. */
    constructor ()
      ensures send == [] && !closed && frames == [] && !closeFrameSent && !pumpDone
    {
      send, closed, frames, closeFrameSent, pumpDone := [], false, [], false, false;
    }

    /** One turn of `writePump` while the queue holds a message: it takes that
        message, asks for a writer (`writerOk`), writes the message and then every
        message queued at that moment, and closes the writer (`closeOk`). The
        messages taken leave the queue whatever happens; the frame is delivered
        only when both steps succeed, and a failure ends the pump. */
    method WriteBatch(writerOk: bool, closeOk: bool) returns (goOn: bool)
      requires |send| > 0 && !pumpDone
      modifies this`send, this`frames, this`pumpDone
      ensures goOn <==> writerOk && closeOk
      ensures pumpDone == !goOn
      ensures send == if writerOk then [] else old(send)[1..]
      ensures frames == if goOn then old(frames) + [Concat(old(send))] else old(frames)
    {
      ghost var queued := send;
      var message := send[0];
      send := send[1..];
      if !writerOk {
        pumpDone := true;
        return false;
      }
      var frame := message;
      assert queued[..1] == [message];
      assert Concat([message]) == message by {
        assert [message][..0] == [];
      }
      var n := |send|;
      var i := 0;
      while i < n
        invariant 0 <= i <= n == |queued| - 1
        invariant send == queued[i + 1..]
        invariant frame == Concat(queued[..i + 1])
        invariant !pumpDone && frames == old(frames)
      {
        assert queued[..i + 2][..i + 1] == queued[..i + 1];
        frame := frame + send[0];
        send := send[1..];
        i := i + 1;
      }
      assert queued[..i + 1] == queued;
      if !closeOk {
        pumpDone := true;
        return false;
      }
      frames := frames + [frame];
      goOn := true;
    }

    /** The end of `writePump` once the hub has closed the queue and it is drained:
        a close frame, then the socket is closed. */
    method Finish()
      requires closed && send == [] && !pumpDone
      modifies this`closeFrameSent, this`pumpDone
      ensures closeFrameSent && pumpDone
    {
      closeFrameSent := true;
      pumpDone := true;
    }
  }

  /** The hub: the registered clients. */
  class Hub {
    var clients: set<Client>

    /** No registered client's queue is closed, and none holds more than its
        capacity. */
    ghost predicate Valid()
      reads this, clients
    {
      forall c :: c in clients ==> !c.closed && |c.send| <= SendCapacity
    }

    /** `WSHub`: no clients. */
    constructor ()
      ensures Valid() && clients == {}
    {
      clients := {};
    }

    /** The `Register` case of `Run`: the client joins the set; a client already
        there changes nothing. */
    method Register(c: Client)
      requires Valid() && !c.closed && |c.send| <= SendCapacity
      modifies this`clients
      ensures Valid() && clients == old(clients) + {c}
    {
      clients := clients + {c};
    }

    /** `WSHandler` after a successful upgrade: a new client with an empty queue,
        registered with the hub. */
    method Accept() returns (c: Client)
      requires Valid()
      modifies this`clients
      ensures Valid() && fresh(c)
      ensures clients == old(clients) + {c}
      ensures c.send == [] && !c.closed && c.frames == [] && !c.pumpDone
    {
      c := new Client();
      Register(c);
    }

    /** The `Unregister` case of `Run`: a registered client leaves the set and its
        queue is closed; an unknown client changes nothing, so no queue is ever
        closed twice. */
    method Unregister(c: Client)
      requires Valid()
      modifies this`clients, c`closed
      ensures Valid()
      ensures clients == old(clients) - {c}
      ensures c.closed == (old(c.closed) || c in old(clients))
    {
      if c in clients {
        clients := clients - {c};
        c.closed := true;
      }
    }

    /** The `Broadcast` case of `Run`: every registered client whose queue has room
        gets `msg` at its tail; every one whose queue is full has its queue
        closed and is removed. No client is added. */
    method Broadcast(msg: Bytes)
      requires Valid()
      modifies this`clients, clients`send, clients`closed
      ensures Valid()
      ensures clients == set c | c in old(clients) && |old(c.send)| < SendCapacity
      ensures forall c :: c in old(clients) && |old(c.send)| < SendCapacity ==>
        c.send == old(c.send) + [msg] && !c.closed
      ensures forall c :: c in old(clients) && |old(c.send)| >= SendCapacity ==>
        c.send == old(c.send) && c.closed
    {
      ghost var before := clients;
      var pending := clients;
      while pending != {}
        invariant pending <= before
        invariant clients == pending + set c | c in before - pending && |old(c.send)| < SendCapacity
        invariant forall c :: c in pending ==> c.send == old(c.send) && c.closed == old(c.closed)
        invariant forall c :: c in before - pending && |old(c.send)| < SendCapacity ==>
          c.send == old(c.send) + [msg] && !c.closed
        invariant forall c :: c in before - pending && |old(c.send)| >= SendCapacity ==>
          c.send == old(c.send) && c.closed
        decreases pending
      {
        var c :| c in pending;
        if |c.send| < SendCapacity {
          c.send := c.send + [msg];
        } else {
          c.closed := true;
          clients := clients - {c};
        }
        pending := pending - {c};
      }
    }

    /** `BroadcastEvent`: an event that failed to serialize (`None`) is dropped;
        otherwise its serialization is broadcast. */
    method BroadcastEvent(encoded: Option<Bytes>)
      requires Valid()
      modifies this`clients, clients`send, clients`closed
      ensures Valid()
      ensures encoded.None? ==>
        && clients == old(clients)
        && (forall c :: c in old(clients) ==> c.send == old(c.send) && !c.closed)
      ensures encoded.Some? ==>
        && clients == (set c | c in old(clients) && |old(c.send)| < SendCapacity)
        && (forall c :: c in clients ==> c.send == old(c.send) + [encoded.value])
        && (forall c :: c in old(clients) && |old(c.send)| >= SendCapacity ==>
              c.send == old(c.send) && c.closed)
    {
      if encoded.Some? {
        Broadcast(encoded.value);
      }
    }
  }
}
