/** The notifications WebSocket client (frontend/src/ws/notificationsClient.ts):
    frame normalisation, listener fan-out, and the connection flags with the
    exponential reconnect backoff.  Timers are values: `reconnectTimer` holds
    the delay of the pending reconnect, `heartbeat` says whether the ping
    interval runs, and firing a timer is a method call.  Whether `new
    WebSocket(url)` throws is a parameter; the URL, the access token and the
    socket's I/O are left out.  The socket event handlers act on the client's
    fields without asking which socket fired, exactly as the source's
    closures do. */
module NotificationsClient {
  import opened Wrappers
  import opened Text
  import opened Json
  import NotificationsStore

  /** The unified message: `None` counts stand for `NaN` or a missing count. */
  datatype NotificationMessage =
    | MetaInit(unreadCount: Option<int>)
    | Notification(typ: string, unreadCount: Option<int>, payload: Option<Json>)
    | Legacy(frame: Json)

  predicate IsKind(data: Json, kind: string) { Get(data, "kind") == Some(JStr(kind)) }

  predicate HasStringType(data: Json) { Get(data, "type").Some? && Get(data, "type").value.JStr? }

  /** The counter of a `notification` frame, kept only when it is a number. */
  function NumberField(data: Json, key: string): (r: Option<int>)
    ensures r.Some? <==> Get(data, key).Some? && Get(data, key).value.JNum?
    ensures r.Some? ==> Get(data, key) == Some(JNum(r.value))
  {
    match Get(data, key)
    case Some(JNum(n)) => Some(n)
    case _ => None
  }

  /** `onmessage`: `raw` is the result of `JSON.parse`, `None` when the frame
      is not JSON. */
  function Normalise(raw: Option<Json>): (r: Option<NotificationMessage>)
    ensures raw.None? ==> r.None?
    ensures raw.Some? && IsKind(raw.value, "meta:init") ==>
      r == Some(MetaInit(JsNumber(JsOr(Get(raw.value, "unread_count"), Some(JNum(0))).value)))
    ensures raw.Some? && IsKind(raw.value, "notification") ==>
      r == Some(Notification(JsString(JsOr(Get(raw.value, "type"), Some(JStr(""))).value),
                             NumberField(raw.value, "unread_count"), Get(raw.value, "payload")))
    ensures raw.Some? && !IsKind(raw.value, "meta:init") && !IsKind(raw.value, "notification") ==>
      (r.Some? <==> HasStringType(raw.value)) && (r.Some? ==> r == Some(Legacy(raw.value)))
  {
    if raw.None? then None
    else
      var data := raw.value;
      if IsKind(data, "meta:init") then
        Some(MetaInit(JsNumber(JsOr(Get(data, "unread_count"), Some(JNum(0))).value)))
      else if IsKind(data, "notification") then
        Some(Notification(JsString(JsOr(Get(data, "type"), Some(JStr(""))).value),
                          NumberField(data, "unread_count"), Get(data, "payload")))
      else if HasStringType(data) then Some(Legacy(data))
      else None
  }

  /** A legacy message always carries a string `type`, and never one of the
      two `kind`s. */
  lemma LegacyHasType(raw: Option<Json>)
    requires Normalise(raw).Some? && Normalise(raw).value.Legacy?
    ensures raw == Some(Normalise(raw).value.frame)
    ensures HasStringType(Normalise(raw).value.frame)
    ensures !IsKind(raw.value, "meta:init") && !IsKind(raw.value, "notification")
  {
  }

  /** `meta:init` without a count, or with a falsy one, reports zero. */
  lemma MetaInitDefaultsToZero(fields: map<string, Json>)
    requires fields.Keys == {"kind"} || (fields.Keys == {"kind", "unread_count"} && !JsTruthy(fields["unread_count"]))
    requires fields["kind"] == JStr("meta:init")
    ensures Normalise(Some(JObj(fields))) == Some(MetaInit(Some(0)))
  {
    assert IsKind(JObj(fields), "meta:init");
  }

  /** A `notification` whose `unread_count` is text has no count: the badge
      logic then increments instead. */
  lemma TextCountDropped(fields: map<string, Json>, count: string)
    requires "kind" in fields && fields["kind"] == JStr("notification") && "unread_count" in fields
    requires fields["unread_count"] == JStr(count)
    ensures Normalise(Some(JObj(fields))).Some?
    ensures Normalise(Some(JObj(fields))).value.Notification?
    ensures Normalise(Some(JObj(fields))).value.unreadCount.None?
  {
    assert IsKind(JObj(fields), "notification");
  }

  /** A frame that is not JSON, or JSON with neither a known kind nor a string
      type, is dropped. */
  lemma DroppedFrames(data: Json)
    requires !IsKind(data, "meta:init") && !IsKind(data, "notification") && !HasStringType(data)
    ensures Normalise(None).None? && Normalise(Some(data)).None?
  {
  }

  /** `Math.min(30_000, 1_000 * Math.pow(2, attempt))`. */
  function Pow2(n: nat): (r: nat)
    ensures r >= 1
  {
    if n == 0 then 1 else 2 * Pow2(n - 1)
  }

  lemma {:induction false} Pow2Monotone(a: nat, b: nat)
    requires a <= b
    ensures Pow2(a) <= Pow2(b)
    decreases b - a
  {
    if a < b {
      Pow2Monotone(a, b - 1);
    }
  }

  const MaxDelay: nat := 30000

  function BackoffDelay(attempt: nat): (r: nat)
    ensures r <= MaxDelay
    ensures r == MaxDelay || r == 1000 * Pow2(attempt)
  {
    if 1000 * Pow2(attempt) < MaxDelay then 1000 * Pow2(attempt) else MaxDelay
  }

  /** 1 s, 2 s, 4 s, 8 s, 16 s, then 30 s for every later attempt. */
  lemma BackoffSchedule(attempt: nat)
    ensures attempt < 5 ==> BackoffDelay(attempt) == 1000 * Pow2(attempt)
    ensures attempt >= 5 ==> BackoffDelay(attempt) == MaxDelay
    ensures BackoffDelay(0) == 1000 && BackoffDelay(4) == 16000
  {
    assert Pow2(4) == 16;
    assert Pow2(5) == 32;
    if attempt < 5 {
      Pow2Monotone(attempt, 4);
    } else {
      Pow2Monotone(5, attempt);
    }
  }

  /** Later attempts never wait less. */
  lemma BackoffMonotone(a: nat, b: nat)
    requires a <= b
    ensures BackoffDelay(a) <= BackoffDelay(b)
  {
    Pow2Monotone(a, b);
  }

  /** One delivery per listener, in listener order. */
  function Deliveries(ls: seq<NotificationsStore.ListenerId>, msg: NotificationMessage): (r: seq<(NotificationsStore.ListenerId, NotificationMessage)>)
    ensures |r| == |ls|
    ensures forall i :: 0 <= i < |ls| ==> r[i] == (ls[i], msg)
  {
    seq(|ls|, i requires 0 <= i < |ls| => (ls[i], msg))
  }

  /** Every listener receives the message. */
  lemma DeliveriesReachAll(ls: seq<NotificationsStore.ListenerId>, msg: NotificationMessage, fn: NotificationsStore.ListenerId)
    requires fn in ls
    ensures (fn, msg) in Deliveries(ls, msg)
  {
    var i :| 0 <= i < |ls| && ls[i] == fn;
    assert Deliveries(ls, msg)[i] == (fn, msg);
  }

  /** The listeners whose call throws, in call order. */
  function Throwing(ls: seq<NotificationsStore.ListenerId>, throws: set<NotificationsStore.ListenerId>): (r: seq<NotificationsStore.ListenerId>)
    ensures |r| <= |ls|
    ensures forall j :: 0 <= j < |r| ==> r[j] in throws
  {
    if ls == [] then []
    else
      Throwing(ls[..|ls| - 1], throws) + (if ls[|ls| - 1] in throws then [ls[|ls| - 1]] else [])
  }

  /** A listener is reported exactly when it is registered and throws. */
  lemma {:induction false} ThrowingMembers(ls: seq<NotificationsStore.ListenerId>, throws: set<NotificationsStore.ListenerId>)
    ensures forall x :: x in Throwing(ls, throws) <==> x in ls && x in throws
  {
    if ls != [] {
      ThrowingMembers(ls[..|ls| - 1], throws);
      assert forall x :: x in ls <==> x in ls[..|ls| - 1] || x == ls[|ls| - 1];
    }
  }

  /** One more listener called: one more delivery at the end. */
  lemma DeliveriesSnoc(ls: seq<NotificationsStore.ListenerId>, i: nat, msg: NotificationMessage)
    requires i < |ls|
    ensures Deliveries(ls[..i + 1], msg) == Deliveries(ls[..i], msg) + [(ls[i], msg)]
  {
    assert ls[..i + 1][..i] == ls[..i];
  }

  /** One more listener called: it is logged at the end exactly when it throws. */
  lemma ThrowingSnoc(ls: seq<NotificationsStore.ListenerId>, i: nat, throws: set<NotificationsStore.ListenerId>)
    requires i < |ls|
    ensures Throwing(ls[..i + 1], throws) == Throwing(ls[..i], throws) + (if ls[i] in throws then [ls[i]] else [])
  {
    assert ls[..i + 1][..i] == ls[..i];
  }

  class Client {
    var stopped: bool
    var connecting: bool
    /** `this.ws !== null` */
    var ws: bool
    /** `this.ws.readyState === WebSocket.OPEN` */
    var wsOpen: bool
    var reconnectAttempt: nat
    var heartbeat: bool
    /** the delay of the pending reconnect timer */
    var reconnectTimer: Option<nat>
    var listeners: seq<NotificationsStore.ListenerId>
    var delivered: seq<(NotificationsStore.ListenerId, NotificationMessage)>
    /** listeners whose call threw, as logged */
    var listenerErrors: seq<NotificationsStore.ListenerId>
    /** the `ts` of every ping sent */
    var pings: seq<int>
    var socketsCreated: nat

    /** A stopped client has no pending reconnect; listeners are a set. */
    ghost predicate Valid()
      reads this
    {
      NotificationsStore.Distinct(listeners) && (stopped ==> reconnectTimer.None?)
    }

    /** A pending reconnect never meets a `connecting` flag without a socket,
        which would make `connect` give up when the timer fires. */
    ghost predicate ReconnectLive()
      reads this
    {
      reconnectTimer.Some? && connecting ==> ws
    }

    constructor ()
      ensures Valid() && ReconnectLive() && !stopped && !connecting && !ws && !wsOpen && !heartbeat
      ensures reconnectAttempt == 0 && reconnectTimer.None? && listeners == []
      ensures delivered == [] && listenerErrors == [] && pings == [] && socketsCreated == 0
    {
      stopped := false;
      connecting := false;
      ws := false;
      wsOpen := false;
      reconnectAttempt := 0;
      heartbeat := false;
      reconnectTimer := None;
      listeners := [];
      delivered := [];
      listenerErrors := [];
      pings := [];
      socketsCreated := 0;
    }

    method Subscribe(fn: NotificationsStore.ListenerId)
      requires Valid()
      modifies this
      ensures Valid()
      ensures old(ReconnectLive()) ==> ReconnectLive()
      ensures listeners == NotificationsStore.Added(old(listeners), fn)
      ensures stopped == old(stopped) && connecting == old(connecting) && ws == old(ws) && wsOpen == old(wsOpen)
      ensures reconnectTimer == old(reconnectTimer) && reconnectAttempt == old(reconnectAttempt)
      ensures heartbeat == old(heartbeat) && delivered == old(delivered) && listenerErrors == old(listenerErrors)
      ensures pings == old(pings) && socketsCreated == old(socketsCreated)
    {
      listeners := NotificationsStore.Added(listeners, fn);
    }

    /** The function returned by `subscribe`. */
    method Unsubscribe(fn: NotificationsStore.ListenerId)
      requires Valid()
      modifies this
      ensures Valid()
      ensures old(ReconnectLive()) ==> ReconnectLive()
      ensures listeners == NotificationsStore.Removed(old(listeners), fn)
      ensures stopped == old(stopped) && connecting == old(connecting) && ws == old(ws) && wsOpen == old(wsOpen)
      ensures reconnectTimer == old(reconnectTimer) && reconnectAttempt == old(reconnectAttempt)
      ensures heartbeat == old(heartbeat) && delivered == old(delivered) && listenerErrors == old(listenerErrors)
      ensures pings == old(pings) && socketsCreated == old(socketsCreated)
    {
      listeners := NotificationsStore.Removed(listeners, fn);
    }

    /** `emit`: each listener is called in turn; one that throws is logged
        and the rest are still called. */
    method Emit(msg: NotificationMessage, throws: set<NotificationsStore.ListenerId>)
      modifies this`delivered, this`listenerErrors
      ensures delivered == old(delivered) + Deliveries(listeners, msg)
      ensures listenerErrors == old(listenerErrors) + Throwing(listeners, throws)
    {
      for i := 0 to |listeners|
        invariant delivered == old(delivered) + Deliveries(listeners[..i], msg)
        invariant listenerErrors == old(listenerErrors) + Throwing(listeners[..i], throws)
      {
        DeliveriesSnoc(listeners, i, msg);
        ThrowingSnoc(listeners, i, throws);
        delivered := delivered + [(listeners[i], msg)];
        if listeners[i] in throws {
          listenerErrors := listenerErrors + [listeners[i]];
        }
      }
      assert listeners[..|listeners|] == listeners;
    }

    /** `scheduleReconnect`: nothing when stopped or when a reconnect is
        already pending; otherwise the next backoff delay. */
    method ScheduleReconnect()
      requires Valid()
      modifies this
      ensures Valid()
      ensures old(ReconnectLive()) ==> ReconnectLive()
      ensures old(stopped) || old(reconnectTimer).Some? ==>
        connecting == old(connecting) && reconnectTimer == old(reconnectTimer) && reconnectAttempt == old(reconnectAttempt)
      ensures !old(stopped) && old(reconnectTimer).None? ==>
        !connecting && reconnectTimer == Some(BackoffDelay(old(reconnectAttempt))) &&
        reconnectAttempt == old(reconnectAttempt) + 1
      ensures stopped == old(stopped) && ws == old(ws) && wsOpen == old(wsOpen) && heartbeat == old(heartbeat)
      ensures listeners == old(listeners) && delivered == old(delivered) && listenerErrors == old(listenerErrors)
      ensures pings == old(pings) && socketsCreated == old(socketsCreated)
    {
      if stopped {
        return;
      }
      if reconnectTimer.Some? {
        return;
      }
      connecting := false;
      var delay := BackoffDelay(reconnectAttempt);
      reconnectAttempt := reconnectAttempt + 1;
      reconnectTimer := Some(delay);
    }

    /** `connect`: a no-op while connecting, with a socket, or when stopped;
        otherwise a new socket, or a reconnect when its constructor throws. */
    method Connect(constructorThrows: bool)
      requires Valid()
      modifies this
      ensures Valid()
      ensures old(ReconnectLive()) ==> ReconnectLive()
      ensures old(connecting) || old(ws) || old(stopped) ==>
        connecting == old(connecting) && ws == old(ws) && reconnectTimer == old(reconnectTimer) &&
        reconnectAttempt == old(reconnectAttempt) && socketsCreated == old(socketsCreated) && wsOpen == old(wsOpen)
      ensures !old(connecting) && !old(ws) && !old(stopped) && !constructorThrows ==>
        connecting && ws && !wsOpen && socketsCreated == old(socketsCreated) + 1 &&
        reconnectTimer == old(reconnectTimer) && reconnectAttempt == old(reconnectAttempt)
      ensures !old(connecting) && !old(ws) && !old(stopped) && constructorThrows ==>
        !connecting && !ws && wsOpen == old(wsOpen) && socketsCreated == old(socketsCreated) &&
        (old(reconnectTimer).Some? ==> reconnectTimer == old(reconnectTimer) && reconnectAttempt == old(reconnectAttempt)) &&
        (old(reconnectTimer).None? ==>
           reconnectTimer == Some(BackoffDelay(old(reconnectAttempt))) && reconnectAttempt == old(reconnectAttempt) + 1)
      ensures stopped == old(stopped) && heartbeat == old(heartbeat)
      ensures listeners == old(listeners) && delivered == old(delivered) && listenerErrors == old(listenerErrors)
      ensures pings == old(pings)
    {
      if connecting || ws || stopped {
        return;
      }
      connecting := true;
      if constructorThrows {
        connecting := false;
        ScheduleReconnect();
      } else {
        ws := true;
        wsOpen := false;
        socketsCreated := socketsCreated + 1;
      }
    }

    method Start(constructorThrows: bool)
      requires Valid()
      modifies this
      ensures Valid() && !stopped
      ensures old(ReconnectLive()) ==> ReconnectLive()
      ensures !old(connecting) && !old(ws) && !constructorThrows ==>
        connecting && ws && socketsCreated == old(socketsCreated) + 1
      ensures !constructorThrows ==> reconnectTimer == old(reconnectTimer) && reconnectAttempt == old(reconnectAttempt)
      ensures old(connecting) || old(ws) ==>
        connecting == old(connecting) && ws == old(ws) && socketsCreated == old(socketsCreated)
      ensures heartbeat == old(heartbeat) && listeners == old(listeners) && delivered == old(delivered)
      ensures listenerErrors == old(listenerErrors) && pings == old(pings)
    {
      stopped := false;
      Connect(constructorThrows);
    }

    /** `stop`: no heartbeat, no pending reconnect, no socket. */
    method Stop()
      requires Valid()
      modifies this
      ensures Valid()
      ensures old(ReconnectLive()) ==> ReconnectLive()
      ensures stopped && !heartbeat && reconnectTimer.None? && !ws && !wsOpen
      ensures connecting == old(connecting) && reconnectAttempt == old(reconnectAttempt)
      ensures listeners == old(listeners) && delivered == old(delivered) && listenerErrors == old(listenerErrors)
      ensures pings == old(pings) && socketsCreated == old(socketsCreated)
    {
      stopped := true;
      heartbeat := false;
      reconnectTimer := None;
      ws := false;
      wsOpen := false;
    }

    /** `onopen`: the attempt counter restarts, the heartbeat starts, and a
        ping is sent when the client still holds the socket. */
    method OnOpen(now: int)
      requires Valid()
      modifies this
      ensures Valid()
      ensures old(ReconnectLive()) ==> ReconnectLive()
      ensures !connecting && reconnectAttempt == 0 && heartbeat && wsOpen == ws
      ensures pings == old(pings) + (if ws then [now] else [])
      ensures ws == old(ws) && stopped == old(stopped) && reconnectTimer == old(reconnectTimer)
      ensures listeners == old(listeners) && delivered == old(delivered) && listenerErrors == old(listenerErrors)
      ensures socketsCreated == old(socketsCreated)
    {
      connecting := false;
      reconnectAttempt := 0;
      heartbeat := true;
      wsOpen := ws;
      if ws && wsOpen {
        pings := pings + [now];
      }
    }

    /** One heartbeat interval: a ping on an open socket. */
    method HeartbeatTick(now: int)
      requires heartbeat
      modifies this
      ensures pings == old(pings) + (if ws && wsOpen then [now] else [])
      ensures ws == old(ws) && wsOpen == old(wsOpen) && heartbeat
    {
      if ws && wsOpen {
        pings := pings + [now];
      }
    }

    /** `onmessage`: a normalised frame goes to every listener. */
    method OnMessage(raw: Option<Json>, throws: set<NotificationsStore.ListenerId>)
      modifies this
      ensures Normalise(raw).Some? ==>
        delivered == old(delivered) + Deliveries(listeners, Normalise(raw).value) &&
        listenerErrors == old(listenerErrors) + Throwing(listeners, throws)
      ensures Normalise(raw).None? ==> delivered == old(delivered) && listenerErrors == old(listenerErrors)
      ensures stopped == old(stopped) && connecting == old(connecting) && ws == old(ws) && wsOpen == old(wsOpen)
      ensures reconnectTimer == old(reconnectTimer) && reconnectAttempt == old(reconnectAttempt)
      ensures heartbeat == old(heartbeat) && listeners == old(listeners)
      ensures pings == old(pings) && socketsCreated == old(socketsCreated)
    {
      var msg := Normalise(raw);
      if msg.Some? {
        Emit(msg.value, throws);
      }
    }

    method OnError()
      requires Valid()
      modifies this
      ensures Valid()
      ensures old(ReconnectLive()) ==> ReconnectLive()
      ensures !old(stopped) && old(reconnectTimer).None? ==>
        !connecting && reconnectTimer == Some(BackoffDelay(old(reconnectAttempt))) &&
        reconnectAttempt == old(reconnectAttempt) + 1
      ensures old(stopped) || old(reconnectTimer).Some? ==>
        connecting == old(connecting) && reconnectTimer == old(reconnectTimer) && reconnectAttempt == old(reconnectAttempt)
      ensures stopped == old(stopped) && ws == old(ws) && wsOpen == old(wsOpen) && heartbeat == old(heartbeat)
      ensures listeners == old(listeners) && delivered == old(delivered) && listenerErrors == old(listenerErrors)
      ensures pings == old(pings) && socketsCreated == old(socketsCreated)
    {
      ScheduleReconnect();
    }

    /** `onclose` as written: drops the socket and schedules a reconnect, but
        leaves `connecting` as it was when a reconnect is already pending. */
    method OnCloseAsWritten()
      requires Valid()
      modifies this
      ensures Valid()
      ensures !heartbeat && !ws && !wsOpen
      ensures !old(stopped) && old(reconnectTimer).None? ==>
        !connecting && reconnectTimer == Some(BackoffDelay(old(reconnectAttempt))) &&
        reconnectAttempt == old(reconnectAttempt) + 1
      ensures old(stopped) || old(reconnectTimer).Some? ==>
        connecting == old(connecting) && reconnectTimer == old(reconnectTimer) && reconnectAttempt == old(reconnectAttempt)
      ensures stopped == old(stopped) && listeners == old(listeners) && delivered == old(delivered)
      ensures listenerErrors == old(listenerErrors) && pings == old(pings) && socketsCreated == old(socketsCreated)
    {
      heartbeat := false;
      ws := false;
      wsOpen := false;
      if !stopped && reconnectTimer.None? {
        connecting := false;
        reconnectTimer := Some(BackoffDelay(reconnectAttempt));
        reconnectAttempt := reconnectAttempt + 1;
      }
    }

    /** `onclose` with the socket's end also ending the connection attempt:
        afterwards a pending reconnect can always proceed. */
    method OnClose()
      requires Valid()
      modifies this
      ensures Valid() && ReconnectLive()
      ensures !heartbeat && !ws && !wsOpen && !connecting
      ensures !old(stopped) && old(reconnectTimer).None? ==>
        reconnectTimer == Some(BackoffDelay(old(reconnectAttempt))) && reconnectAttempt == old(reconnectAttempt) + 1
      ensures old(stopped) || old(reconnectTimer).Some? ==>
        reconnectTimer == old(reconnectTimer) && reconnectAttempt == old(reconnectAttempt)
      ensures stopped == old(stopped) && listeners == old(listeners) && delivered == old(delivered)
      ensures listenerErrors == old(listenerErrors) && pings == old(pings) && socketsCreated == old(socketsCreated)
    {
      heartbeat := false;
      ws := false;
      wsOpen := false;
      connecting := false;
      if !stopped {
        ScheduleReconnect();
      }
    }

    /** The reconnect timer fires: when the reconnect was live, the client
        ends up with a socket or with a new pending reconnect. */
    method ReconnectTimerFires(constructorThrows: bool)
      requires Valid() && reconnectTimer.Some?
      modifies this
      ensures Valid()
      ensures old(ReconnectLive()) ==> ReconnectLive() && (ws || reconnectTimer.Some?)
      ensures !old(ws) && !old(connecting) && !constructorThrows ==> ws && socketsCreated == old(socketsCreated) + 1
      ensures old(connecting) || old(ws) ==> reconnectTimer.None? && connecting == old(connecting) && ws == old(ws)
      ensures stopped == old(stopped) && listeners == old(listeners)
    {
      reconnectTimer := None;
      Connect(constructorThrows);
    }
  }

  /** The sequence that strands the client as written: a `start` while a
      reconnect is pending creates a socket; when that socket fails, the
      close handler finds the reconnect pending and leaves `connecting` set;
      when the timer fires, `connect` gives up.  The client is then left
      running with no socket, no pending reconnect and `connecting` set, and
      neither `stop` nor a later `start` clears it. */
  method StrandedAsWritten() returns (c: Client)
    ensures !c.stopped && c.connecting && !c.ws && c.reconnectTimer.None?
  {
    c := new Client();
    c.Start(false);
    c.OnError();
    c.OnCloseAsWritten();
    c.Start(false);
    c.OnError();
    c.OnCloseAsWritten();
    c.ReconnectTimerFires(false);
    c.Stop();
    c.Start(false);
  }

  /** The same sequence with `OnClose`: the fired timer opens a new socket. */
  method RecoversWithOnClose() returns (c: Client)
    ensures !c.stopped && c.ws && c.socketsCreated == 3
  {
    c := new Client();
    c.Start(false);
    c.OnError();
    c.OnClose();
    c.Start(false);
    c.OnError();
    c.OnClose();
    c.ReconnectTimerFires(false);
  }
}
