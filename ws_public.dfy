/**
 * The public WebSocket manager (ws/public.ts): one socket to the public stream of an
 * account, the subscriptions to re-send whenever it opens, and a keep-alive interval.
 * Socket events (open, close) and interval ticks are methods the environment calls.
 */
module WsPublic {
  import opened Wrappers
  import opened External
  import opened Values
  import opened WsSession

  class WebSocketManager {
    const url: string
    const pingInterval: nat
    const lib: Lib
    /** this.websocket: null until connect, and again after disconnect. */
    var websocket: Socket?
    /** this.subscriptions, in insertion order. */
    var subscriptions: seq<Obj>
    /** this.pingTimer and the intervals still running for this manager. */
    var timers: Timers

    predicate Valid()
      reads this
    {
      Distinct(subscriptions) && TimersValid(timers)
    }

    /** `wsPublicUrl` is the table of public stream endpoints by network id. */
    constructor (networkId: string, accountId: string, wsPublicUrl: map<string, string>, lib: Lib)
      ensures url == EndpointUrl(wsPublicUrl, networkId, accountId) && pingInterval == PingInterval
      ensures websocket == null && subscriptions == [] && timers == NoTimers
      ensures this.lib == lib && Valid()
    {
      url := EndpointUrl(wsPublicUrl, networkId, accountId);
      pingInterval := PingInterval;
      this.lib := lib;
      websocket := null;
      subscriptions := [];
      timers := NoTimers;
    }

    /** connect: a new socket to the manager's URL, with its close handler attached at once. */
    method Connect()
      requires Valid()
      modifies this
      ensures Valid() && fresh(websocket)
      ensures websocket.url == url && websocket.readyState == Connecting && websocket.sent == [] && websocket.onclose
      ensures subscriptions == old(subscriptions) && timers == old(timers)
    {
      var socket := new Socket(url);
      socket.onclose := true;
      websocket := socket;
    }

    /**
     * The open event of `socket`, a socket this manager connected. The handler acts on the
     * current handle, which a later connect may have replaced: the stored subscriptions are
     * sent again, in order, when that handle is open, and ping starts in any case, so the
     * open event of a replaced socket starts a second interval.
     */
    method OnOpen(socket: Socket)
      requires Valid() && socket.readyState == Open
      modifies this, websocket
      ensures Valid() && websocket == old(websocket)
      ensures subscriptions == old(subscriptions) && timers == Started(old(timers))
      ensures old(websocket) != null ==>
        && websocket.readyState == old(websocket.readyState) && websocket.onclose == old(websocket.onclose)
        && websocket.sent == old(websocket.sent) + (if old(websocket.readyState) == Open then Frames(lib, old(subscriptions)) else [])
      ensures socket != old(websocket) ==> socket.sent == old(socket.sent) && socket.readyState == Open
    {
      ghost var live := websocket != null && websocket.readyState == Open;
      var pending := subscriptions;
      var i := 0;
      while i < |pending|
        invariant 0 <= i <= |pending|
        invariant Valid() && subscriptions == pending && timers == old(timers) && websocket == old(websocket)
        invariant websocket != null ==>
          && websocket.readyState == old(websocket.readyState) && websocket.onclose == old(websocket.onclose)
          && websocket.sent == old(websocket.sent) + (if live then Frames(lib, pending[..i]) else [])
      {
        SendSubscription(pending[i]);
        FramesSnoc(lib, pending[..i], pending[i]);
        assert pending[..i + 1] == pending[..i] + [pending[i]];
        i := i + 1;
      }
      assert pending[..i] == pending;
      StartPing();
    }

    /** The close event of a socket this manager opened: its handler stops ping. */
    method OnClose(socket: Socket)
      requires Valid()
      modifies this, socket
      ensures Valid() && socket.readyState == Closed && socket.sent == old(socket.sent)
      ensures timers == (if old(socket.onclose) then Stopped(old(timers)) else old(timers))
      ensures websocket == old(websocket) && subscriptions == old(subscriptions)
    {
      socket.CloseCompleted();
      if socket.onclose {
        StopPing();
      }
    }

    /** disconnect: with a socket, close it, drop the handle and stop ping; without one, nothing. */
    method Disconnect()
      requires Valid()
      modifies this, websocket
      ensures Valid() && websocket == null && subscriptions == old(subscriptions)
      ensures timers == (if old(websocket) == null then old(timers) else Stopped(old(timers)))
      ensures old(websocket) != null ==>
        && old(websocket).readyState == (if old(websocket.readyState) in {Connecting, Open} then Closing else old(websocket.readyState))
        && old(websocket).sent == old(websocket.sent)
    {
      if websocket != null {
        websocket.Close();
        websocket := null;
        StopPing();
      }
    }

    /** sendSubscription: on an open socket, send the subscription and remember it; otherwise nothing at all. */
    method SendSubscription(subscription: Obj)
      requires Valid()
      modifies this, websocket
      ensures Valid() && websocket == old(websocket) && timers == old(timers)
      ensures websocket != null ==> websocket.readyState == old(websocket.readyState) && websocket.onclose == old(websocket.onclose)
      ensures if websocket != null && websocket.readyState == Open then
          && websocket.sent == old(websocket.sent) + [SubscriptionFrame(lib, subscription)]
          && subscriptions == SetAdd(old(subscriptions), subscription)
        else
          && subscriptions == old(subscriptions)
          && (websocket != null ==> websocket.sent == old(websocket.sent))
    {
      if websocket != null && websocket.readyState == Open {
        websocket.Send(SubscriptionFrame(lib, subscription));
        SetAddFacts(subscriptions, subscription);
        subscriptions := SetAdd(subscriptions, subscription);
      }
    }

    /** unsubscribe: the subscription is forgotten locally; nothing is sent. */
    method Unsubscribe(subscription: Obj)
      requires Valid()
      modifies this
      ensures Valid() && subscriptions == SetDelete(old(subscriptions), subscription)
      ensures websocket == old(websocket) && timers == old(timers)
    {
      SetDeleteFacts(subscriptions, subscription);
      subscriptions := SetDelete(subscriptions, subscription);
    }

    /** startPing: a new interval whose handle replaces the kept one. */
    method StartPing()
      requires Valid()
      modifies this
      ensures Valid() && timers == Started(old(timers))
      ensures websocket == old(websocket) && subscriptions == old(subscriptions)
    {
      StartedValid(timers);
      timers := Started(timers);
    }

    /** stopPing: clear the kept interval, if any, and forget its handle. */
    method StopPing()
      requires Valid()
      modifies this
      ensures Valid() && timers == Stopped(old(timers))
      ensures websocket == old(websocket) && subscriptions == old(subscriptions)
    {
      StoppedValid(timers);
      match timers.handle {
        case Some(id) =>
          timers := Timers(None, timers.live - {id}, timers.issued);
        case None =>
      }
    }

    /** A tick of a running ping interval: pong on an open socket, nothing otherwise, a TypeError with no socket. */
    method Tick(id: nat) returns (outcome: TickOutcome)
      requires id in timers.live
      modifies websocket
      ensures outcome == (if websocket == null then NullSocket else if old(websocket.readyState) == Open then SentPong else NotOpen)
      ensures websocket != null ==>
        && websocket.readyState == old(websocket.readyState) && websocket.onclose == old(websocket.onclose)
        && websocket.sent == old(websocket.sent) + (if outcome == SentPong then [PongFrame(lib)] else [])
    {
      if websocket == null {
        return NullSocket;
      }
      if websocket.readyState == Open {
        websocket.Send(PongFrame(lib));
        outcome := SentPong;
      } else {
        outcome := NotOpen;
      }
    }
  }
}
