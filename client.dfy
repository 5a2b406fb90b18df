/** The mini-program's WebSocket client (socket.ts): one connection to the server, an
    outgoing queue for frames sent while offline, event listeners, acknowledged emits
    with a 30-second timeout, and reconnection with exponential backoff.

    The platform's socket task, its callbacks and the timers are driven from outside:
    each callback (`onOpen`, `onClose`, `onError`, the connect `fail` callback, a frame
    arriving, a timer firing) is a method the environment calls. What the service hands
    to `socketTask.send` is appended to `transmitted`; each call of a listener is
    appended to `notifications`; each settlement of an `emitWithAck` promise is
    appended to `resolutions`. */
module ClientTransport {
  import opened Wire

  /** A listener function; two listeners are the same function when their `ref`s are. */
  datatype Listener = Listener(ref: nat)

  /** One call of a listener with its argument. */
  datatype Notification = Notification(listener: Listener, arg: Value)

  /** The promise of the `emitWithAck` that sent `ackId` settled with `value`. */
  datatype Resolution = Resolution(ackId: nat, value: Value)

  const MaxReconnectAttempts: nat := 5
  const MaxBackoff: nat := 30000

  function Pow2(n: nat): (r: nat)
    ensures r >= 1
  {
    if n == 0 then 1 else 2 * Pow2(n - 1)
  }

  /** `Math.min(1000 * Math.pow(2, attempts), 30000)`: the wait before reconnect
      attempt number `attempts`, the smaller of the doubling delay and the cap. */
  function BackoffDelay(attempts: nat): (r: nat)
    ensures r <= 1000 * Pow2(attempts) && r <= MaxBackoff
    ensures r == 1000 * Pow2(attempts) || r == MaxBackoff
  {
    if 1000 * Pow2(attempts) < MaxBackoff then 1000 * Pow2(attempts) else MaxBackoff
  }

  lemma {:induction false} Pow2Monotone(a: nat, b: nat)
    requires a <= b
    ensures Pow2(a) <= Pow2(b)
    decreases b
  {
    if a < b {
      Pow2Monotone(a, b - 1);
    }
  }

  /** A later attempt never waits less, and no wait exceeds 30 seconds. */
  lemma BackoffMonotone(a: nat, b: nat)
    requires a <= b
    ensures BackoffDelay(a) <= BackoffDelay(b) <= MaxBackoff
  {
    Pow2Monotone(a, b);
  }

  /** From the fifth attempt on, the wait is the 30-second cap. */
  lemma BackoffCapped(attempts: nat)
    requires attempts >= 5
    ensures BackoffDelay(attempts) == MaxBackoff
  {
    Pow2Monotone(5, attempts);
  }

  /** The listeners registered for `event`; the empty list when there is no entry. */
  function ListenersOf(listeners: map<string, seq<Listener>>, event: string): seq<Listener>
  {
    if event in listeners then listeners[event] else []
  }

  /** `listeners.forEach(callback => callback(arg))`: each listener once, in order. */
  function Calls(ls: seq<Listener>, arg: Value): seq<Notification>
  {
    seq(|ls|, k requires 0 <= k < |ls| => Notification(ls[k], arg))
  }

  /** Calling the listeners of two lists one after the other is calling those of
      the joined list. */
  lemma CallsAppend(a: seq<Listener>, b: seq<Listener>, arg: Value)
    ensures Calls(a + b, arg) == Calls(a, arg) + Calls(b, arg)
  {
    assert forall k :: 0 <= k < |a| + |b| ==> Calls(a + b, arg)[k] == (Calls(a, arg) + Calls(b, arg))[k];
  }

  /** `Array.prototype.indexOf`: the first position of `x`, or -1 when it is absent. */
  function IndexOf(s: seq<Listener>, x: Listener): (r: int)
    ensures r == -1 <==> x !in s
    ensures r != -1 ==> 0 <= r < |s| && s[r] == x && x !in s[..r]
  {
    if |s| == 0 then -1
    else if s[0] == x then 0
    else
      var k := IndexOf(s[1..], x);
      if k == -1 then -1 else k + 1
  }

  /** `splice(i, 1)`: the list without its element at `i`; the elements before it
      keep their places and those after it move up by one. */
  function RemoveAt(s: seq<Listener>, i: nat): (r: seq<Listener>)
    requires i < |s|
    ensures |r| == |s| - 1
    ensures forall k :: 0 <= k < i ==> r[k] == s[k]
    ensures forall k :: i <= k < |r| ==> r[k] == s[k + 1]
  {
    s[..i] + s[i + 1..]
  }

  /** `off(event, callback)` takes out one registration of the callback, the first,
      and leaves the others in their order. */
  lemma RemoveFirstOccurrence(s: seq<Listener>, x: Listener)
    requires x in s
    ensures multiset(RemoveAt(s, IndexOf(s, x))) == multiset(s) - multiset{x}
  {
    var i := IndexOf(s, x);
    assert s == s[..i] + [x] + s[i + 1..];
    WithoutOne(s[..i], x, s[i + 1..]);
  }

  /** Taking one `x` out of a list's multiset is dropping that occurrence. */
  lemma WithoutOne(before: seq<Listener>, x: Listener, after: seq<Listener>)
    ensures multiset(before + [x] + after) - multiset{x} == multiset(before + after)
  {
    assert multiset(before + [x] + after) == multiset(before + after) + multiset{x};
  }

  /** `on(event, l)` for a listener not yet registered, then `off(event, l)`, gives the
      list back. */
  lemma OffUndoesOn(ls: seq<Listener>, l: Listener)
    requires l !in ls
    ensures IndexOf(ls + [l], l) == |ls|
    ensures RemoveAt(ls + [l], IndexOf(ls + [l], l)) == ls
  {
    var s := ls + [l];
    assert s[..|ls|] == ls;
    assert l in s;
  }

  /** The token as it goes into the connect URL: `auth.token || ''`. The parameter is
      empty exactly when there is no token or it is empty, and is the token otherwise. */
  function QueryToken(token: Option<string>): (r: string)
    ensures r == "" <==> token.None? || token.value == ""
    ensures r != "" ==> token == Some(r)
  {
    if token.Some? then token.value else ""
  }

  class SocketService {
    /** Whether `socket` holds a task (it is set to null by `disconnect`). */
    var hasSocket: bool
    var connected: bool
    var messageQueue: seq<Envelope>
    var transmitted: seq<Envelope>
    var listeners: map<string, seq<Listener>>
    var notifications: seq<Notification>
    /** The ackIds whose promise is still waiting for its reply. */
    var ackCallbacks: set<nat>
    /** The ackIds whose 30-second timeout has not fired yet. */
    var ackTimers: set<nat>
    var ackId: nat
    var resolutions: seq<Resolution>
    /** The pending reconnect timer, by its delay in milliseconds. */
    var reconnectTimer: Option<nat>
    var reconnectAttempts: nat
    /** `auth.token` as last read from storage. */
    var authToken: Option<string>
    /** The `token` query parameter of each connection opened, in order. */
    var connections: seq<string>
    /** The 100 ms timers started by `updateAuthToken` that have not fired yet. */
    var authReconnects: nat

    /** A connection counts as open only with a task; reconnecting stops after
        five attempts; every pending ackId has its timeout armed; ids are handed out
        in increasing order; and each promise settles at most once. */
    ghost predicate Valid()
      reads this
    {
      && (connected ==> hasSocket)
      && reconnectAttempts <= MaxReconnectAttempts
      && (forall id :: id in ackCallbacks ==> id in ackTimers)
      && (forall id :: id in ackTimers ==> id < ackId)
      && (forall k :: 0 <= k < |resolutions| ==>
            resolutions[k].ackId < ackId && resolutions[k].ackId !in ackCallbacks)
      && (forall i, j :: 0 <= i < j < |resolutions| ==> resolutions[i].ackId != resolutions[j].ackId)
    }

    /** `new SocketService()` connects at once, with the token found in storage. */
    constructor (token: Option<string>)
      ensures Valid()
      ensures hasSocket && !connected && authToken == token && connections == [QueryToken(token)]
      ensures messageQueue == [] && transmitted == [] && listeners == map[] && notifications == []
      ensures ackCallbacks == {} && ackTimers == {} && ackId == 0 && resolutions == []
      ensures reconnectTimer == None && reconnectAttempts == 0 && authReconnects == 0
    {
      hasSocket := false;
      connected := false;
      messageQueue := [];
      transmitted := [];
      listeners := map[];
      notifications := [];
      ackCallbacks := {};
      ackTimers := {};
      ackId := 0;
      resolutions := [];
      reconnectTimer := None;
      reconnectAttempts := 0;
      authToken := None;
      connections := [];
      authReconnects := 0;
      new;
      Connect(token);
    }

    /** `connect()`: reads the token and opens a task to `socketURL?token=...`. */
    method Connect(token: Option<string>)
      modifies this`authToken, this`hasSocket, this`connections
      ensures authToken == token && hasSocket
      ensures connections == old(connections) + [QueryToken(token)]
    {
      authToken := token;
      connections := connections + [QueryToken(token)];
      hasSocket := true;
    }

    /** The connect call's `fail` callback. */
    method ConnectFail()
      requires Valid()
      modifies this`reconnectAttempts, this`reconnectTimer
      ensures Valid()
      ensures ReconnectScheduled(old(reconnectAttempts), old(reconnectTimer), reconnectAttempts, reconnectTimer)
    {
      HandleReconnect();
    }

    /** The reconnect rule: nothing after the fifth attempt or while a timer is
        pending; otherwise one more attempt, after its backoff delay. */
    static predicate ReconnectScheduled(attempts: nat, timer: Option<nat>, attempts': nat, timer': Option<nat>)
    {
      if attempts >= MaxReconnectAttempts || timer.Some? then attempts' == attempts && timer' == timer
      else attempts' == attempts + 1 && timer' == Some(BackoffDelay(attempts + 1))
    }

    method HandleReconnect()
      requires Valid()
      modifies this`reconnectAttempts, this`reconnectTimer
      ensures Valid()
      ensures ReconnectScheduled(old(reconnectAttempts), old(reconnectTimer), reconnectAttempts, reconnectTimer)
    {
      if reconnectAttempts >= MaxReconnectAttempts {
        return;
      }
      if reconnectTimer.Some? {
        return;
      }
      reconnectAttempts := reconnectAttempts + 1;
      reconnectTimer := Some(BackoffDelay(reconnectAttempts));
    }

    /** The reconnect timer fires: it is cleared and `connect()` runs again. */
    method ReconnectTimerFires(token: Option<string>)
      requires Valid() && reconnectTimer.Some?
      modifies this`reconnectTimer, this`authToken, this`hasSocket, this`connections
      ensures Valid()
      ensures reconnectTimer == None && hasSocket && authToken == token
      ensures connections == old(connections) + [QueryToken(token)]
    {
      reconnectTimer := None;
      Connect(token);
    }

    /** The task opened: the service is connected, the attempt count starts over,
        the `connect` listeners are called, and the queue is flushed. */
    method OnOpen()
      requires Valid() && hasSocket
      modifies this`connected, this`reconnectAttempts, this`notifications, this`messageQueue, this`transmitted
      ensures Valid()
      ensures connected && reconnectAttempts == 0
      ensures notifications == old(notifications) + Calls(ListenersOf(listeners, "connect"), Undefined)
      ensures messageQueue == [] && transmitted == old(transmitted) + old(messageQueue)
    {
      connected := true;
      reconnectAttempts := 0;
      Emit("connect", []);
      FlushMessageQueue();
    }

    /** The task closed: disconnected, the `disconnect` listeners are called, and a
        reconnect is scheduled by the backoff rule. */
    method OnClose()
      requires Valid()
      modifies this`connected, this`notifications, this`reconnectAttempts, this`reconnectTimer
      ensures Valid()
      ensures !connected
      ensures notifications == old(notifications) + Calls(ListenersOf(listeners, "disconnect"), Undefined)
      ensures ReconnectScheduled(old(reconnectAttempts), old(reconnectTimer), reconnectAttempts, reconnectTimer)
    {
      connected := false;
      Notify("disconnect", Undefined);
      HandleReconnect();
    }

    /** A task error: disconnected and the `disconnect` listeners are called; no
        reconnect is scheduled. */
    method OnError()
      requires Valid()
      modifies this`connected, this`notifications
      ensures Valid()
      ensures !connected
      ensures notifications == old(notifications) + Calls(ListenersOf(listeners, "disconnect"), Undefined)
    {
      connected := false;
      Notify("disconnect", Undefined);
    }

    /** `flushMessageQueue`: while connected, the queued frames go out in order. */
    method FlushMessageQueue()
      requires Valid()
      modifies this`messageQueue, this`transmitted
      ensures Valid()
      ensures connected ==> messageQueue == [] && transmitted == old(transmitted) + old(messageQueue)
      ensures !connected ==> messageQueue == old(messageQueue) && transmitted == old(transmitted)
    {
      while |messageQueue| > 0 && connected
        invariant Valid()
        invariant connected ==> transmitted + messageQueue == old(transmitted) + old(messageQueue)
        invariant !connected ==> messageQueue == old(messageQueue) && transmitted == old(transmitted)
        decreases |messageQueue|
      {
        var message := messageQueue[0];
        messageQueue := messageQueue[1..];
        SendMessage(message);
      }
    }

    /** `sendMessage`: straight to the task when connected, otherwise queued. */
    method SendMessage(message: Envelope)
      modifies this`messageQueue, this`transmitted
      ensures connected && hasSocket ==>
        transmitted == old(transmitted) + [message] && messageQueue == old(messageQueue)
      ensures !(connected && hasSocket) ==>
        messageQueue == old(messageQueue) + [message] && transmitted == old(transmitted)
    {
      if !connected || !hasSocket {
        messageQueue := messageQueue + [message];
        return;
      }
      transmitted := transmitted + [message];
    }

    /** `emit`: `connect` and `disconnect` call the local listeners with the first
        argument; any other event is sent to the server with all arguments as data. */
    method Emit(event: string, args: seq<Value>)
      modifies this`notifications, this`messageQueue, this`transmitted
      ensures event == "connect" || event == "disconnect" ==>
        notifications == old(notifications) + Calls(ListenersOf(listeners, event), FirstArg(args)) &&
        messageQueue == old(messageQueue) && transmitted == old(transmitted)
      ensures event != "connect" && event != "disconnect" ==>
        notifications == old(notifications) &&
        Delivered(old(messageQueue), old(transmitted), Envelope(event, List(args), None))
    {
      if event == "connect" || event == "disconnect" {
        Notify(event, FirstArg(args));
        return;
      }
      SendMessage(Envelope(event, List(args), None));
    }

    /** `message` went out now when the service is connected with a task, and was
        queued behind `queue` otherwise. */
    ghost predicate Delivered(queue: seq<Envelope>, sent: seq<Envelope>, message: Envelope)
      reads this`connected, this`hasSocket, this`messageQueue, this`transmitted
    {
      if connected && hasSocket then transmitted == sent + [message] && messageQueue == queue
      else messageQueue == queue + [message] && transmitted == sent
    }

    /** `emitWithAck`: the next ackId is taken, its promise waits for the reply, the
        frame carries the id, and the 30-second timeout is armed. */
    method EmitWithAck(event: string, args: seq<Value>) returns (id: nat)
      requires Valid()
      modifies this`ackId, this`ackCallbacks, this`ackTimers, this`messageQueue, this`transmitted
      ensures Valid()
      ensures id == old(ackId) && ackId == id + 1
      ensures id !in old(ackCallbacks) && ackCallbacks == old(ackCallbacks) + {id}
      ensures ackTimers == old(ackTimers) + {id}
      ensures forall k :: 0 <= k < |resolutions| ==> resolutions[k].ackId != id
      ensures Delivered(old(messageQueue), old(transmitted), Envelope(event, List(args), Some(id)))
    {
      id := ackId;
      ackId := ackId + 1;
      ackCallbacks := ackCallbacks + {id};
      SendMessage(Envelope(event, List(args), Some(id)));
      ackTimers := ackTimers + {id};
    }

    /** The timeout of an `emitWithAck` fires: a promise still waiting settles with
        null; one already settled is left alone. */
    method AckTimeout(id: nat)
      requires Valid() && id in ackTimers
      modifies this`ackTimers, this`ackCallbacks, this`resolutions
      ensures Valid()
      ensures ackTimers == old(ackTimers) - {id}
      ensures ackCallbacks == old(ackCallbacks) - {id}
      ensures resolutions == old(resolutions) + (if id in old(ackCallbacks) then [Resolution(id, Null)] else [])
    {
      ackTimers := ackTimers - {id};
      if id in ackCallbacks {
        ackCallbacks := ackCallbacks - {id};
        resolutions := resolutions + [Resolution(id, Null)];
      }
    }

    /** `handleMessage` as intended: a reply to a waiting ackId settles that promise
        with the data; any other frame with an event calls that event's listeners with
        the data. */
    method HandleMessage(frame: Envelope)
      requires Valid()
      modifies this`ackCallbacks, this`resolutions, this`notifications
      ensures Valid()
      ensures IsReply(frame, old(ackCallbacks)) ==>
        ackCallbacks == old(ackCallbacks) - {frame.ackId.value} &&
        resolutions == old(resolutions) + [Resolution(frame.ackId.value, frame.data)] &&
        notifications == old(notifications)
      ensures !IsReply(frame, old(ackCallbacks)) ==>
        ackCallbacks == old(ackCallbacks) && resolutions == old(resolutions) &&
        notifications == old(notifications) +
          (if frame.event != "" then Calls(ListenersOf(listeners, frame.event), frame.data) else [])
    {
      if frame.ackId.Some? && frame.ackId.value >= 0 && frame.ackId.value in ackCallbacks {
        var id: nat := frame.ackId.value;
        resolutions := resolutions + [Resolution(id, frame.data)];
        ackCallbacks := ackCallbacks - {id};
        return;
      }
      if frame.event != "" {
        Notify(frame.event, frame.data);
      }
    }

    /** `handleMessage` as written: a frame that is not a reply is passed to
        `this.emit(event, data)`, which calls listeners only for `connect` and
        `disconnect` and sends every other event back to the server. */
    method HandleMessageAsWritten(frame: Envelope)
      requires Valid()
      modifies this`ackCallbacks, this`resolutions, this`notifications, this`messageQueue, this`transmitted
      ensures Valid()
      ensures IsReply(frame, old(ackCallbacks)) ==>
        ackCallbacks == old(ackCallbacks) - {frame.ackId.value} &&
        resolutions == old(resolutions) + [Resolution(frame.ackId.value, frame.data)] &&
        notifications == old(notifications) &&
        messageQueue == old(messageQueue) && transmitted == old(transmitted)
      ensures !IsReply(frame, old(ackCallbacks)) && (frame.event == "connect" || frame.event == "disconnect") ==>
        ackCallbacks == old(ackCallbacks) && resolutions == old(resolutions) &&
        notifications == old(notifications) + Calls(ListenersOf(listeners, frame.event), frame.data) &&
        messageQueue == old(messageQueue) && transmitted == old(transmitted)
      ensures !IsReply(frame, old(ackCallbacks)) && frame.event != "" && frame.event != "connect" && frame.event != "disconnect" ==>
        ackCallbacks == old(ackCallbacks) && resolutions == old(resolutions) &&
        notifications == old(notifications) &&
        Delivered(old(messageQueue), old(transmitted), Envelope(frame.event, List([frame.data]), None))
      ensures !IsReply(frame, old(ackCallbacks)) && frame.event == "" ==>
        ackCallbacks == old(ackCallbacks) && resolutions == old(resolutions) &&
        notifications == old(notifications) &&
        messageQueue == old(messageQueue) && transmitted == old(transmitted)
    {
      if frame.ackId.Some? && frame.ackId.value >= 0 && frame.ackId.value in ackCallbacks {
        var id: nat := frame.ackId.value;
        resolutions := resolutions + [Resolution(id, frame.data)];
        ackCallbacks := ackCallbacks - {id};
        return;
      }
      if frame.event != "" {
        Emit(frame.event, [frame.data]);
      }
    }

    /** The frame answers a promise that is still waiting. */
    static predicate IsReply(frame: Envelope, pending: set<nat>)
    {
      frame.ackId.Some? && frame.ackId.value >= 0 && frame.ackId.value as nat in pending
    }

    /** Each listener of `event` is called with `arg`, in registration order. */
    method Notify(event: string, arg: Value)
      modifies this`notifications
      ensures notifications == old(notifications) + Calls(ListenersOf(listeners, event), arg)
    {
      var ls := ListenersOf(listeners, event);
      var i := 0;
      while i < |ls|
        invariant 0 <= i <= |ls|
        invariant notifications == old(notifications) + Calls(ls[..i], arg)
      {
        CallsAppend(ls[..i], [ls[i]], arg);
        assert ls[..i + 1] == ls[..i] + [ls[i]];
        notifications := notifications + [Notification(ls[i], arg)];
        i := i + 1;
      }
      assert ls[..i] == ls;
    }

    /** `on`: the listener is added at the end of the event's list. */
    method On(event: string, l: Listener)
      modifies this`listeners
      ensures listeners == old(listeners)[event := ListenersOf(old(listeners), event) + [l]]
    {
      listeners := listeners[event := ListenersOf(listeners, event) + [l]];
    }

    /** `off`: without a callback the event's entry goes; with one, its first
        registration is spliced out when there is one. */
    method Off(event: string, callback: Option<Listener>)
      modifies this`listeners
      ensures callback.None? ==> listeners == old(listeners) - {event}
      ensures callback.Some? && event in old(listeners) && callback.value in old(listeners)[event] ==>
        listeners == old(listeners)[event := RemoveAt(old(listeners)[event], IndexOf(old(listeners)[event], callback.value))]
      ensures callback.Some? && !(event in old(listeners) && callback.value in old(listeners)[event]) ==>
        listeners == old(listeners)
    {
      if callback.None? {
        listeners := listeners - {event};
        return;
      }
      if event in listeners {
        var ls := listeners[event];
        var index := IndexOf(ls, callback.value);
        if index > -1 {
          listeners := listeners[event := RemoveAt(ls, index)];
        }
      }
    }

    /** `disconnect`: the reconnect timer is cancelled, the task is closed and
        dropped, and the service is no longer connected. */
    method Disconnect()
      requires Valid()
      modifies this`reconnectTimer, this`hasSocket, this`connected
      ensures Valid()
      ensures reconnectTimer == None && !hasSocket && !connected
    {
      if reconnectTimer.Some? {
        reconnectTimer := None;
      }
      if hasSocket {
        hasSocket := false;
      }
      connected := false;
    }

    /** `updateAuthToken`: the token is read again, every waiting promise is dropped
        (its timeout then finds nothing to settle), the service disconnects, and a
        connect follows 100 ms later. */
    method UpdateAuthToken(token: Option<string>)
      requires Valid()
      modifies this`authToken, this`ackCallbacks, this`reconnectTimer, this`hasSocket, this`connected, this`authReconnects
      ensures Valid()
      ensures authToken == token && ackCallbacks == {}
      ensures reconnectTimer == None && !hasSocket && !connected
      ensures authReconnects == old(authReconnects) + 1
    {
      authToken := token;
      ackCallbacks := {};
      Disconnect();
      authReconnects := authReconnects + 1;
    }

    /** The 100 ms timer of `updateAuthToken` fires and `connect()` runs. */
    method AuthReconnectFires(token: Option<string>)
      requires authReconnects > 0
      modifies this`authReconnects, this`authToken, this`hasSocket, this`connections
      ensures authReconnects == old(authReconnects) - 1
      ensures authToken == token && hasSocket
      ensures connections == old(connections) + [QueryToken(token)]
    {
      authReconnects := authReconnects - 1;
      Connect(token);
    }
  }

  /** A service whose connections never open and always close: the waits before
      the reconnect attempts are 2, 4, 8 and 16 seconds and then the 30-second cap,
      and after the fifth attempt no timer is started. */
  method BackoffWithoutOpen() returns (delays: seq<nat>, lastTimer: Option<nat>)
    ensures delays == [2000, 4000, 8000, 16000, 30000]
    ensures lastTimer == None
  {
    var s := new SocketService(None);
    delays := [];
    var i := 0;
    while i < 5
      invariant 0 <= i <= 5
      invariant s.Valid() && s.reconnectAttempts == i && s.reconnectTimer == None
      invariant delays == seq(i, k requires 0 <= k < i => BackoffDelay(k + 1))
    {
      s.OnClose();
      delays := delays + [s.reconnectTimer.value];
      s.ReconnectTimerFires(None);
      i := i + 1;
    }
    s.OnClose();
    lastTimer := s.reconnectTimer;
    assert Pow2(1) == 2 && Pow2(2) == 4 && Pow2(3) == 8 && Pow2(4) == 16 && Pow2(5) == 32;
    assert delays == [BackoffDelay(1), BackoffDelay(2), BackoffDelay(3), BackoffDelay(4), BackoffDelay(5)];
  }

  /** A frame `achievementUnlocked` pushed by the server to a connected client with a
      listener for it: the intended handling calls the listener; as written the
      listener is not called and the frame is sent back to the server. */
  method EchoCounterexample() returns (asWritten: seq<Notification>, echoed: seq<Envelope>, intended: seq<Notification>)
    ensures asWritten == []
    ensures echoed == [Envelope("achievementUnlocked", List([Text("a1")]), None)]
    ensures intended == [Notification(Listener(1), Text("a1"))]
  {
    var frame := Envelope("achievementUnlocked", Text("a1"), None);
    var a := new SocketService(Some("t"));
    a.OnOpen();
    a.On("achievementUnlocked", Listener(1));
    a.HandleMessageAsWritten(frame);
    asWritten := a.notifications;
    echoed := a.transmitted;
    var b := new SocketService(Some("t"));
    b.OnOpen();
    b.On("achievementUnlocked", Listener(1));
    b.HandleMessage(frame);
    intended := b.notifications;
  }

  /** An `emitWithAck` still waiting when `updateAuthToken` runs is never settled: its
      timeout fires and finds no entry, so its promise stays pending. */
  method DroppedAckNeverSettles() returns (id: nat, settled: seq<Resolution>)
    ensures id == 0 && settled == []
  {
    var s := new SocketService(Some("old"));
    s.OnOpen();
    id := s.EmitWithAck("getUser", []);
    s.UpdateAuthToken(Some("new"));
    s.AckTimeout(id);
    settled := s.resolutions;
  }
}
