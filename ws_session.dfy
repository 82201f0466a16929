/**
 * What the public and the private WebSocket managers (ws/public.ts, ws/private.ts) share:
 * the browser socket as a ready state plus the frames sent through it, a subscription
 * `Set` as an insertion-ordered list without repeats, the endpoint URL, the frames the
 * managers serialize, and the ping interval handles as a small timer table.
 */
module WsSession {
  import opened Wrappers
  import opened External
  import opened Values

  /** The interval, in milliseconds, both managers give to setInterval. */
  const PingInterval: nat := 10000

  /** WebSocket.readyState: CONNECTING, OPEN, CLOSING, CLOSED. */
  datatype ReadyState = Connecting | Open | Closing | Closed

  /** A browser WebSocket: its URL, its ready state, the frames sent so far, and whether an onclose handler is attached. */
  class Socket {
    const url: string
    var readyState: ReadyState
    var sent: seq<string>
    var onclose: bool

    /** new WebSocket(url): connecting, nothing sent, no handler yet. */
    constructor (url: string)
      ensures this.url == url && readyState == Connecting && sent == [] && !onclose
    {
      this.url := url;
      readyState := Connecting;
      sent := [];
      onclose := false;
    }

    /** The connection is established; the open event follows. */
    method Opened()
      requires readyState == Connecting
      modifies this
      ensures readyState == Open && sent == old(sent) && onclose == old(onclose)
    {
      readyState := Open;
    }

    /** send(frame) on an open socket transmits the frame. */
    method Send(frame: string)
      requires readyState == Open
      modifies this
      ensures sent == old(sent) + [frame] && readyState == old(readyState) && onclose == old(onclose)
    {
      sent := sent + [frame];
    }

    /** close(): an open or connecting socket starts closing; a closing or closed one is left as it is. */
    method Close()
      modifies this
      ensures readyState == (if old(readyState) in {Connecting, Open} then Closing else old(readyState))
      ensures sent == old(sent) && onclose == old(onclose)
    {
      if readyState == Connecting || readyState == Open {
        readyState := Closing;
      }
    }

    /** The connection is gone; the close event follows. */
    method CloseCompleted()
      modifies this
      ensures readyState == Closed && sent == old(sent) && onclose == old(onclose)
    {
      readyState := Closed;
    }
  }

  /** `${WsUrl[networkId]}${accountId}`: an unknown network id reads as undefined. */
  function EndpointUrl(table: map<string, string>, networkId: string, accountId: string): (u: string)
    ensures networkId in table ==> u == table[networkId] + accountId
    ensures networkId !in table ==> u == "undefined" + accountId
    ensures |u| >= |accountId| && u[|u| - |accountId|..] == accountId
  {
    (if networkId in table then table[networkId] else "undefined") + accountId
  }

  /** JSON.stringify(subscription). */
  function SubscriptionFrame(lib: Lib, subscription: Obj): string {
    JsonObj(lib, subscription)
  }

  /** The frames of the subscriptions, in their order. */
  function Frames(lib: Lib, subscriptions: seq<Obj>): (fs: seq<string>)
    ensures |fs| == |subscriptions|
    ensures forall i :: 0 <= i < |fs| ==> fs[i] == SubscriptionFrame(lib, subscriptions[i])
  {
    seq(|subscriptions|, i requires 0 <= i < |subscriptions| => SubscriptionFrame(lib, subscriptions[i]))
  }

  lemma FramesSnoc(lib: Lib, subscriptions: seq<Obj>, x: Obj)
    ensures Frames(lib, subscriptions + [x]) == Frames(lib, subscriptions) + [SubscriptionFrame(lib, x)]
  {
  }

  /** The keep-alive object `{event: 'pong'}`. */
  const Pong: Obj := Obj([Field("event", Str("pong"))])

  /** JSON.stringify({event: 'pong'}). */
  function PongFrame(lib: Lib): (f: string)
    ensures f == "{" + lib.jsonString("event") + ":" + lib.jsonString("pong") + "}"
  {
    JsonObj(lib, Pong)
  }

  /** No subscription is held twice: the list reads a JavaScript Set in insertion order. */
  predicate Distinct(s: seq<Obj>) {
    forall i, j :: 0 <= i < j < |s| ==> s[i] != s[j]
  }

  /** Set.prototype.add: a new member goes last, a present one changes nothing. */
  function SetAdd(s: seq<Obj>, x: Obj): (r: seq<Obj>)
    ensures x in s ==> r == s
    ensures x !in s ==> r == s + [x]
  {
    if x in s then s else s + [x]
  }

  /** Set.prototype.delete: the member is dropped, the others keep their order. */
  function SetDelete(s: seq<Obj>, x: Obj): (r: seq<Obj>)
    ensures |r| <= |s|
  {
    if s == [] then []
    else if s[0] == x then SetDelete(s[1..], x)
    else [s[0]] + SetDelete(s[1..], x)
  }

  /** Adding keeps the list free of repeats and holds exactly the old members and the new one. */
  lemma SetAddFacts(s: seq<Obj>, x: Obj)
    requires Distinct(s)
    ensures Distinct(SetAdd(s, x))
    ensures forall y :: y in SetAdd(s, x) <==> y in s || y == x
  {
  }

  /** Deleting keeps the list free of repeats and holds exactly the old members other than x. */
  lemma {:induction false} SetDeleteFacts(s: seq<Obj>, x: Obj)
    requires Distinct(s)
    ensures Distinct(SetDelete(s, x))
    ensures forall y :: y in SetDelete(s, x) <==> y in s && y != x
  {
    if s != [] {
      assert Distinct(s[1..]) by {
        forall i, j | 0 <= i < j < |s[1..]| ensures s[1..][i] != s[1..][j] {
          assert s[1..][i] == s[i + 1] && s[1..][j] == s[j + 1];
        }
      }
      SetDeleteFacts(s[1..], x);
      assert s[0] !in s[1..];
    }
  }

  /** Deleting a member that is not held changes nothing. */
  lemma {:induction false} SetDeleteAbsent(s: seq<Obj>, x: Obj)
    requires x !in s
    ensures SetDelete(s, x) == s
  {
    if s != [] {
      SetDeleteAbsent(s[1..], x);
    }
  }

  /** Adding and then deleting the same subscription leaves the set as deleting alone would. */
  lemma {:induction false} SetDeleteAdd(s: seq<Obj>, x: Obj)
    ensures SetDelete(SetAdd(s, x), x) == SetDelete(s, x)
  {
    if x !in s {
      SetDeleteSnoc(s, x);
      SetDeleteAbsent(s, x);
    }
  }

  lemma {:induction false} SetDeleteSnoc(s: seq<Obj>, x: Obj)
    ensures SetDelete(s + [x], x) == SetDelete(s, x)
  {
    if s == [] {
      assert [x][1..] == [];
    } else {
      assert (s + [x])[1..] == s[1..] + [x];
      SetDeleteSnoc(s[1..], x);
    }
  }

  /**
   * The ping intervals of one manager: the handle it keeps (null or a setInterval id), the
   * intervals the event loop still runs for it, and how many ids it has been given.
   * Browser interval ids are positive, so a kept handle is always truthy.
   */
  datatype Timers = Timers(handle: Option<nat>, live: set<nat>, issued: nat)

  /** The kept handle is live, and every live interval has an id already issued. */
  predicate TimersValid(t: Timers) {
    && (t.handle.Some? ==> t.handle.value in t.live)
    && forall id :: id in t.live ==> 0 < id <= t.issued
  }

  const NoTimers: Timers := Timers(None, {}, 0)

  /** startPing: `handle = setInterval(...)`, a new interval with a fresh id; a previous handle is overwritten, not cleared. */
  function Started(t: Timers): (r: Timers)
    ensures r.handle.Some?
  {
    Timers(Some(t.issued + 1), t.live + {t.issued + 1}, t.issued + 1)
  }

  /** stopPing: with a handle, clearInterval(handle) and forget it; without one, nothing. */
  function Stopped(t: Timers): (r: Timers)
    ensures r.handle.None?
  {
    match t.handle
    case Some(id) => Timers(None, t.live - {id}, t.issued)
    case None => t
  }

  /** Starting gives a fresh, live interval and keeps the table valid. */
  lemma StartedValid(t: Timers)
    requires TimersValid(t)
    ensures TimersValid(Started(t)) && Started(t).handle.value !in t.live
    ensures Started(t).live == t.live + {Started(t).handle.value}
  {
  }

  /** Stopping keeps the table valid, runs no new interval, and ends exactly the one the handle named. */
  lemma StoppedValid(t: Timers)
    requires TimersValid(t)
    ensures TimersValid(Stopped(t)) && Stopped(t).live <= t.live
    ensures t.handle.Some? ==> Stopped(t).live == t.live - {t.handle.value} && t.handle.value in t.live
  {
  }

  /** A second stopPing changes nothing. */
  lemma StoppedIdempotent(t: Timers)
    ensures Stopped(Stopped(t)) == Stopped(t)
  {
  }

  /** Starting then stopping ends exactly the interval just started. */
  lemma StartThenStop(t: Timers)
    requires TimersValid(t)
    ensures Stopped(Started(t)).live == t.live
  {
  }

  /**
   * Starting ping while an interval is still running leaves that interval running after the
   * next stop: the handle to it was overwritten, so no later stopPing can clear it.
   */
  lemma RestartLeavesInterval(t: Timers)
    requires TimersValid(t) && t.handle.Some?
    ensures t.handle.value in Stopped(Started(t)).live
    ensures Stopped(Stopped(Started(t))).live == Stopped(Started(t)).live
  {
  }

  /** What a ping tick did. */
  datatype TickOutcome =
    | SentPong
    | NotOpen
    /** `this.websocket.readyState` on a null handle throws a TypeError. */
    | NullSocket
}
