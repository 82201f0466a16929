/**
 * The private WebSocket manager (ws/private.ts). It differs from the public one in three
 * ways: its URL is the private endpoint, its open handler sends an auth frame signed with
 * the orderly key after re-sending the subscriptions, and its close handler is attached
 * only by the open handler, so a socket that closes before it opens stops nothing.
 */
module WsPrivate {
  import opened Wrappers
  import opened External
  import opened Values
  import opened WsSession
  import Base64
  import OrderSignature
  import Headers
  import Configuration

  /** The fixed request id of the auth frame. */
  const AuthId: string := "123r"

  /** signPostRequestByOrderlyKey(keyPair, utf8(timestamp)): the orderly key signs the timestamp text alone. */
  function AuthSignature(lib: Lib, orderlyKeyPrivate: string, timestamp: string): string {
    OrderSignature.SignPostRequestByOrderlyKey(lib, orderlyKeyPrivate, lib.utf8(timestamp))
  }

  /** The auth payload for the clock reading `now`. */
  function AuthMessage(lib: Lib, options: Configuration.SdkOptions, now: nat): Obj {
    var timestamp := Headers.Timestamp(now);
    Obj([Field("id", Str(AuthId)),
         Field("event", Str("auth")),
         Field("params", Object(Obj([Field("orderly_key", Str(options.publicKey)),
                                     Field("sign", Str(AuthSignature(lib, options.orderlyKeyPrivate, timestamp))),
                                     Field("timestamp", Str(timestamp))])))])
  }

  /** JSON.stringify(payload). */
  function AuthFrame(lib: Lib, options: Configuration.SdkOptions, now: nat): string {
    JsonObj(lib, AuthMessage(lib, options, now))
  }

  /**
   * The auth payload is `{id: "123r", event: "auth", params}` in that key order; params
   * carries the orderly public key, the timestamp text, and as `sign` 88 base64 characters
   * that decode to the Ed25519 signature of exactly that timestamp text.
   */
  lemma AuthMessageShape(lib: Lib, options: Configuration.SdkOptions, now: nat)
    ensures var m := AuthMessage(lib, options, now);
      && Keys(m) == ["id", "event", "params"]
      && Get(m, "id") == Some(Str(AuthId)) && Get(m, "event") == Some(Str("auth"))
      && Get(m, "params").Some? && Get(m, "params").value.Object?
      && var p := Get(m, "params").value.obj;
      && Keys(p) == ["orderly_key", "sign", "timestamp"]
      && Get(p, "orderly_key") == Some(Str(options.publicKey))
      && Get(p, "timestamp") == Some(Str(Headers.Timestamp(now)))
      && Get(p, "sign").Some? && Get(p, "sign").value.Str?
      && var sign := Get(p, "sign").value.s;
      && |sign| == 88
      && Base64.Decode(sign) == Some(lib.ed25519Sign(options.orderlyKeyPrivate, lib.utf8(Headers.Timestamp(now))))
  {
    var timestamp := Headers.Timestamp(now);
    var m := AuthMessage(lib, options, now);
    var p := m.fields[2].value.obj;
    assert "id" != "event" && "id" != "params" && "event" != "params" by {
      assert "id"[0] != "event"[0] && "id"[0] != "params"[0] && "event"[0] != "params"[0];
    }
    assert "orderly_key" != "sign" && "orderly_key" != "timestamp" && "sign" != "timestamp" by {
      assert "orderly_key"[0] != "sign"[0] && "orderly_key"[0] != "timestamp"[0] && "sign"[0] != "timestamp"[0];
    }
    var fs := m.fields;
    assert fs[1..][1..] == [fs[2]];
    assert Lookup(fs, "event") == Lookup(fs[1..], "event");
    assert Lookup(fs, "params") == Lookup(fs[1..], "params") == Lookup(fs[1..][1..], "params");
    assert KeysOf(fs) == ["id", "event", "params"];
    var ps := p.fields;
    assert ps[1..][1..] == [ps[2]];
    assert Lookup(ps, "sign") == Lookup(ps[1..], "sign");
    assert Lookup(ps, "timestamp") == Lookup(ps[1..], "timestamp") == Lookup(ps[1..][1..], "timestamp");
    assert KeysOf(ps) == ["orderly_key", "sign", "timestamp"];
    OrderSignature.OrderlySignatureDecodes(lib, options.orderlyKeyPrivate, lib.utf8(timestamp));
  }

  /**
   * With a matching key pair in the options, the exchange accepts the auth frame: its `sign`
   * verifies under its `orderly_key` for the UTF-8 bytes of its own `timestamp`.
   */
  lemma AuthMessageVerifies(lib: Lib, options: Configuration.SdkOptions, now: nat)
    requires KeysMatch(lib, options.orderlyKeyPrivate, options.publicKey)
    ensures var m := AuthMessage(lib, options, now);
      && Get(m, "params").Some? && Get(m, "params").value.Object?
      && var p := Get(m, "params").value.obj;
      && Get(p, "orderly_key").Some? && Get(p, "orderly_key").value.Str?
      && Get(p, "sign").Some? && Get(p, "sign").value.Str?
      && Get(p, "timestamp").Some? && Get(p, "timestamp").value.Str?
      && OrderSignature.OrderlySignatureValid(lib, Get(p, "orderly_key").value.s,
                                              lib.utf8(Get(p, "timestamp").value.s), Get(p, "sign").value.s)
  {
    AuthMessageShape(lib, options, now);
    OrderSignature.SignedRequestVerifies(lib, options.orderlyKeyPrivate, options.publicKey, lib.utf8(Headers.Timestamp(now)));
  }

  class WebSocketManager {
    const sdkOptions: Configuration.SdkOptions
    const privateUrl: string
    const pingInterval: nat
    const lib: Lib
    /** this.privateWebsocket: null until connectPrivate, and again after disconnectPrivate. */
    var privateWebsocket: Socket?
    /** this.privateSubscriptions, in insertion order. */
    var privateSubscriptions: seq<Obj>
    /** this.pingTimerPrivate and the intervals still running for this manager. */
    var timers: Timers

    predicate Valid()
      reads this
    {
      Distinct(privateSubscriptions) && TimersValid(timers)
    }

    /** `wsPrivateUrl` is the table of private stream endpoints by network id. */
    constructor (sdkOptions: Configuration.SdkOptions, wsPrivateUrl: map<string, string>, lib: Lib)
      ensures privateUrl == EndpointUrl(wsPrivateUrl, sdkOptions.networkId, sdkOptions.accountId)
      ensures pingInterval == PingInterval && this.sdkOptions == sdkOptions && this.lib == lib
      ensures privateWebsocket == null && privateSubscriptions == [] && timers == NoTimers && Valid()
    {
      this.sdkOptions := sdkOptions;
      privateUrl := EndpointUrl(wsPrivateUrl, sdkOptions.networkId, sdkOptions.accountId);
      pingInterval := PingInterval;
      this.lib := lib;
      privateWebsocket := null;
      privateSubscriptions := [];
      timers := NoTimers;
    }

    /** connectPrivate: a new socket to the private URL; no close handler until it opens. */
    method ConnectPrivate()
      requires Valid()
      modifies this
      ensures Valid() && fresh(privateWebsocket)
      ensures privateWebsocket.url == privateUrl && privateWebsocket.readyState == Connecting
      ensures privateWebsocket.sent == [] && !privateWebsocket.onclose
      ensures privateSubscriptions == old(privateSubscriptions) && timers == old(timers)
    {
      privateWebsocket := new Socket(privateUrl);
    }

    /**
     * The open event of `socket`, a socket this manager connected, with the clock reading
     * `now`. The handler acts on the current handle, which a later connect may have replaced:
     * the stored subscriptions are sent again when that handle is open, then the auth frame
     * for that timestamp. Sending throws on a null or still-connecting handle, which ends the
     * handler (`ok` false); a closing or closed handle discards the frame. Otherwise ping
     * starts and the close handler is attached to the current handle, never to a replaced
     * socket.
     */
    method OnOpen(socket: Socket, now: nat) returns (ok: bool)
      requires Valid() && socket.readyState == Open
      modifies this, privateWebsocket
      ensures Valid() && privateWebsocket == old(privateWebsocket) && privateSubscriptions == old(privateSubscriptions)
      ensures ok <==> old(privateWebsocket) != null && old(privateWebsocket.readyState) != Connecting
      ensures timers == (if ok then Started(old(timers)) else old(timers))
      ensures old(privateWebsocket) != null ==>
        && privateWebsocket.readyState == old(privateWebsocket.readyState)
        && privateWebsocket.onclose == (ok || old(privateWebsocket.onclose))
        && privateWebsocket.sent == old(privateWebsocket.sent)
           + (if old(privateWebsocket.readyState) == Open
              then Frames(lib, old(privateSubscriptions)) + [AuthFrame(lib, sdkOptions, now)] else [])
      ensures socket != old(privateWebsocket) ==> socket.sent == old(socket.sent) && socket.onclose == old(socket.onclose)
    {
      ghost var live := privateWebsocket != null && privateWebsocket.readyState == Open;
      var pending := privateSubscriptions;
      var i := 0;
      while i < |pending|
        invariant 0 <= i <= |pending|
        invariant Valid() && privateSubscriptions == pending && timers == old(timers)
        invariant privateWebsocket == old(privateWebsocket)
        invariant privateWebsocket != null ==>
          && privateWebsocket.readyState == old(privateWebsocket.readyState)
          && privateWebsocket.onclose == old(privateWebsocket.onclose)
          && privateWebsocket.sent == old(privateWebsocket.sent) + (if live then Frames(lib, pending[..i]) else [])
      {
        SendPrivateSubscription(pending[i]);
        FramesSnoc(lib, pending[..i], pending[i]);
        assert pending[..i + 1] == pending[..i] + [pending[i]];
        i := i + 1;
      }
      assert pending[..i] == pending;
      if privateWebsocket == null || privateWebsocket.readyState == Connecting {
        return false;
      }
      if privateWebsocket.readyState == Open {
        privateWebsocket.Send(AuthFrame(lib, sdkOptions, now));
      }
      StartPingPrivate();
      privateWebsocket.onclose := true;
      ok := true;
    }

    /** The close event of a socket this manager opened: stops ping only if its open handler had run. */
    method OnClose(socket: Socket)
      requires Valid()
      modifies this, socket
      ensures Valid() && socket.readyState == Closed && socket.sent == old(socket.sent)
      ensures timers == (if old(socket.onclose) then Stopped(old(timers)) else old(timers))
      ensures privateWebsocket == old(privateWebsocket) && privateSubscriptions == old(privateSubscriptions)
    {
      socket.CloseCompleted();
      if socket.onclose {
        StopPingPrivate();
      }
    }

    /** disconnectPrivate: with a socket, close it, drop the handle and stop ping; without one, nothing. */
    method DisconnectPrivate()
      requires Valid()
      modifies this, privateWebsocket
      ensures Valid() && privateWebsocket == null && privateSubscriptions == old(privateSubscriptions)
      ensures timers == (if old(privateWebsocket) == null then old(timers) else Stopped(old(timers)))
      ensures old(privateWebsocket) != null ==>
        && old(privateWebsocket).readyState
           == (if old(privateWebsocket.readyState) in {Connecting, Open} then Closing else old(privateWebsocket.readyState))
        && old(privateWebsocket).sent == old(privateWebsocket.sent)
    {
      if privateWebsocket != null {
        privateWebsocket.Close();
        privateWebsocket := null;
        StopPingPrivate();
      }
    }

    /** sendPrivateSubscription: on an open socket, send the subscription and remember it; otherwise nothing at all. */
    method SendPrivateSubscription(subscription: Obj)
      requires Valid()
      modifies this, privateWebsocket
      ensures Valid() && privateWebsocket == old(privateWebsocket) && timers == old(timers)
      ensures privateWebsocket != null ==>
        privateWebsocket.readyState == old(privateWebsocket.readyState) && privateWebsocket.onclose == old(privateWebsocket.onclose)
      ensures if privateWebsocket != null && privateWebsocket.readyState == Open then
          && privateWebsocket.sent == old(privateWebsocket.sent) + [SubscriptionFrame(lib, subscription)]
          && privateSubscriptions == SetAdd(old(privateSubscriptions), subscription)
        else
          && privateSubscriptions == old(privateSubscriptions)
          && (privateWebsocket != null ==> privateWebsocket.sent == old(privateWebsocket.sent))
    {
      if privateWebsocket != null && privateWebsocket.readyState == Open {
        privateWebsocket.Send(SubscriptionFrame(lib, subscription));
        SetAddFacts(privateSubscriptions, subscription);
        privateSubscriptions := SetAdd(privateSubscriptions, subscription);
      }
    }

    /** unsubscribePrivate: the subscription is forgotten locally; nothing is sent. */
    method UnsubscribePrivate(subscription: Obj)
      requires Valid()
      modifies this
      ensures Valid() && privateSubscriptions == SetDelete(old(privateSubscriptions), subscription)
      ensures privateWebsocket == old(privateWebsocket) && timers == old(timers)
    {
      SetDeleteFacts(privateSubscriptions, subscription);
      privateSubscriptions := SetDelete(privateSubscriptions, subscription);
    }

    /** startPingPrivate: a new interval whose handle replaces the kept one. */
    method StartPingPrivate()
      requires Valid()
      modifies this
      ensures Valid() && timers == Started(old(timers))
      ensures privateWebsocket == old(privateWebsocket) && privateSubscriptions == old(privateSubscriptions)
    {
      StartedValid(timers);
      timers := Started(timers);
    }

    /** stopPingPrivate: clear the kept interval, if any, and forget its handle. */
    method StopPingPrivate()
      requires Valid()
      modifies this
      ensures Valid() && timers == Stopped(old(timers))
      ensures privateWebsocket == old(privateWebsocket) && privateSubscriptions == old(privateSubscriptions)
    {
      StoppedValid(timers);
      match timers.handle {
        case Some(id) =>
          timers := Timers(None, timers.live - {id}, timers.issued);
        case None =>
      }
    }

    /** A tick of a running ping interval: pong on an open socket, nothing otherwise, a TypeError with no socket. */
    method Tick(id: nat) returns (outcome: TickOutcome)
      requires id in timers.live
      modifies privateWebsocket
      ensures outcome == (if privateWebsocket == null then NullSocket
                          else if old(privateWebsocket.readyState) == Open then SentPong else NotOpen)
      ensures privateWebsocket != null ==>
        && privateWebsocket.readyState == old(privateWebsocket.readyState)
        && privateWebsocket.onclose == old(privateWebsocket.onclose)
        && privateWebsocket.sent == old(privateWebsocket.sent) + (if outcome == SentPong then [PongFrame(lib)] else [])
    {
      if privateWebsocket == null {
        return NullSocket;
      }
      if privateWebsocket.readyState == Open {
        privateWebsocket.Send(PongFrame(lib));
        outcome := SentPong;
      } else {
        outcome := NotOpen;
      }
    }
  }
}
