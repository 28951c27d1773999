/** The Phoenix-channel client of lib/websocket/phoenix_client.js: the socket URL,
    the three envelopes it sends, the join-reply rule, inbound dispatch and the
    `connected` / `socket` / `heartbeatInterval` state. The socket is an abstract
    ready state; the wire is the sequence of envelopes sent; timers and socket
    events are explicit event methods. */
module Phoenix {
  import opened Wrappers
  import opened Strings
  import opened Json

  const SocketPath := "/socket/websocket"
  const JoinRef := "join_ref_1"

  /** A Phoenix message: `{topic, event, payload, ref}`. */
  datatype Envelope = Envelope(topic: string, event: string, payload: Json, ref: string)

  /** The URL `connect` opens: the first `http://` becomes `ws://`, then the first
      `https://` becomes `wss://`, and the socket path is appended. */
  function SocketUrl(serverUrl: string): (url: string)
    ensures EndsWith(url, SocketPath)
  {
    var u := ReplaceFirst(ReplaceFirst(serverUrl, "http://", "ws://"), "https://", "wss://");
    assert (u + SocketPath)[|u|..] == SocketPath;
    u + SocketPath
  }

  /** `"https://"` cannot start inside `"ws://"`: it starts with `h`. */
  lemma NoHttpsInWs(rest: string)
    ensures forall k: nat :: k < |"ws://"| ==> !OccursAt("ws://" + rest, "https://", k)
  {
    var s := "ws://" + rest;
    forall k: nat | k < 5
      ensures !OccursAt(s, "https://", k)
    {
      assert s[k] == "ws://"[k];
      if k + 8 <= |s| {
        assert s[k..k + 8][0] == s[k];
      }
    }
  }

  /** `"http://"` cannot start inside `"https://"`. */
  lemma NoHttpInHttps(rest: string)
    ensures forall k: nat :: k < |"https://"| ==> !OccursAt("https://" + rest, "http://", k)
  {
    var s := "https://" + rest;
    forall k: nat | k < 8
      ensures !OccursAt(s, "http://", k)
    {
      assert s[k] == "https://"[k];
      if k + 7 <= |s| {
        assert s[k..k + 7][0] == s[k];
        assert s[k..k + 7][4] == s[k + 4];
      }
    }
  }

  /** An `http://` server URL becomes the `ws://` socket URL with the same rest. */
  lemma SocketUrlHttp(rest: string)
    requires IndexOf(rest, "https://").None?
    ensures SocketUrl("http://" + rest) == "ws://" + rest + SocketPath
  {
    var s := "http://" + rest;
    assert OccursAt(s, "http://", 0);
    assert IndexOf(s, "http://") == Some(0);
    assert ReplaceFirst(s, "http://", "ws://") == "ws://" + rest;
    NoHttpsInWs(rest);
    IndexOfAfterPrefix("ws://", rest, "https://");
  }

  /** An `https://` server URL becomes the `wss://` socket URL with the same rest. */
  lemma SocketUrlHttps(rest: string)
    requires IndexOf(rest, "http://").None?
    ensures SocketUrl("https://" + rest) == "wss://" + rest + SocketPath
  {
    var s := "https://" + rest;
    NoHttpInHttps(rest);
    IndexOfAfterPrefix("https://", rest, "http://");
    assert ReplaceFirst(s, "http://", "ws://") == s;
    assert OccursAt(s, "https://", 0);
    assert IndexOf(s, "https://") == Some(0);
  }

  /** The channel of one device. */
  function DeviceTopic(deviceId: string): (topic: string)
    ensures StartsWith(topic, "device:") && topic[|"device:"|..] == deviceId
  {
    "device:" + deviceId
  }

  /** The `phx_join` envelope, with the fixed join ref: an `ok` reply carrying
      that ref is what the join listener accepts. */
  function JoinEnvelope(deviceId: string, token: string): (e: Envelope)
    ensures e.topic == DeviceTopic(deviceId) && e.event == "phx_join"
    ensures e.payload.JObj? && e.payload.fields.Keys == {"token"} && HasField(e.payload, "token", JStr(token))
    ensures Verdict(JObj(map["event" := JStr("phx_reply"), "ref" := JStr(e.ref),
                             "payload" := JObj(map["status" := JStr("ok")])])) == Accepted
  {
    Envelope(DeviceTopic(deviceId), "phx_join", JObj(map["token" := JStr(token)]), JoinRef)
  }

  /** A heartbeat on the `phoenix` topic with an empty payload. */
  function HeartbeatEnvelope(stamp: string): (e: Envelope)
    ensures e.topic == "phoenix" && e.event == "heartbeat" && e.payload == JObj(map[])
    ensures StartsWith(e.ref, "hb_") && e.ref != JoinRef
  {
    var r := "hb_" + stamp;
    assert r[..3] == "hb_" && r[0] != JoinRef[0];
    Envelope("phoenix", "heartbeat", JObj(map[]), r)
  }

  /** What `sendMessage` puts on the wire; its ref is the event, `_` and the clock. */
  function OutboundEnvelope(deviceId: string, event: string, payload: Json, stamp: string): (e: Envelope)
    ensures e.topic == DeviceTopic(deviceId) && e.event == event && e.payload == payload
    ensures StartsWith(e.ref, event + "_")
  {
    var r := event + "_" + stamp;
    assert r[..|event + "_"|] == event + "_";
    Envelope(DeviceTopic(deviceId), event, payload, r)
  }

  /** What the join listener makes of the one message it sees. */
  datatype JoinVerdict =
    | Ignored                      // not the join reply: the listener is spent, the timer runs on
    | Accepted                     // status "ok": `connected = true`, the join resolves
    | Refused(payload: Json)       // any other status: the join rejects
    | Threw(timerCleared: bool)    // reading a property of null or undefined raised a TypeError

  /** `message.event === 'phx_reply' && message.ref === 'join_ref_1'`, then
      `message.payload.status === 'ok'`. */
  function Verdict(message: Json): (v: JoinVerdict)
    ensures v == Threw(false) <==> message == JNull
    ensures v == Threw(true) ==>
      HasField(message, "event", JStr("phx_reply")) && HasField(message, "ref", JStr(JoinRef)) &&
      ("payload" !in message.fields || message.fields["payload"] == JNull)
  {
    match Property(message, "event")
    case Failure(_) => Threw(false)
    case Success(event) =>
      if event == Some(JStr("phx_reply")) && Property(message, "ref") == Success(Some(JStr(JoinRef))) then
        match Property(message, "payload")
        case Failure(_) => Threw(true)
        case Success(None) => Threw(true)
        case Success(Some(payload)) =>
          match Property(payload, "status")
          case Failure(_) => Threw(true)
          case Success(status) => if status == Some(JStr("ok")) then Accepted else Refused(payload)
      else Ignored
  }

  /** The field `key` of an object, as a JSON value. */
  predicate HasField(j: Json, key: string, v: Json) {
    j.JObj? && key in j.fields && j.fields[key] == v
  }

  /** A join succeeds exactly on a `phx_reply` for the join ref whose payload
      status is `"ok"`; any other status on such a reply refuses it; a message
      that is not such a reply leaves the join pending. */
  lemma VerdictRule(message: Json)
    ensures Verdict(message) == Accepted <==>
      HasField(message, "event", JStr("phx_reply")) && HasField(message, "ref", JStr(JoinRef)) &&
      "payload" in message.fields && HasField(message.fields["payload"], "status", JStr("ok"))
    ensures Verdict(message).Refused? <==>
      HasField(message, "event", JStr("phx_reply")) && HasField(message, "ref", JStr(JoinRef)) &&
      "payload" in message.fields && message.fields["payload"] != JNull &&
      !HasField(message.fields["payload"], "status", JStr("ok"))
    ensures Verdict(message) == Ignored <==>
      message != JNull && !(HasField(message, "event", JStr("phx_reply")) && HasField(message, "ref", JStr(JoinRef)))
  {
  }

  /** A join reply for the join ref that carries no payload: reading its status
      raises after the join timer was cleared, so the join neither resolves nor
      rejects. */
  lemma ReplyWithoutPayloadThrows()
    ensures Verdict(JObj(map["event" := JStr("phx_reply"), "ref" := JStr(JoinRef)])) == Threw(true)
    ensures Verdict(JObj(map["event" := JStr("phx_reply"), "ref" := JStr(JoinRef), "payload" := JNull])) == Threw(true)
  {
  }

  /** What `handleMessage` does with an inbound message besides notifying the
      join listener. */
  datatype Dispatch = NoDispatch | PrintHtml(payload: Option<Json>)

  function Route(message: Json): (d: Dispatch)
    ensures d.PrintHtml? <==> HasField(message, "event", JStr("print_html"))
    ensures d.PrintHtml? ==> d.payload == (if "payload" in message.fields then Some(message.fields["payload"]) else None)
  {
    match Property(message, "event")
    case Failure(_) => NoDispatch
    case Success(event) =>
      if event == Some(JStr("phx_reply")) then NoDispatch
      else if event == Some(JStr("print_html")) then
        match Property(message, "payload")
        case Success(p) => PrintHtml(p)
        case Failure(_) => NoDispatch
      else NoDispatch
  }

  /** Replies and every event other than `print_html` dispatch nothing. */
  lemma RepliesAreSwallowed(message: Json)
    requires HasField(message, "event", JStr("phx_reply"))
    ensures Route(message) == NoDispatch
  {
  }

  /** `WebSocket.readyState`, with `null` for no socket. */
  datatype SocketState = NoSocket | Connecting | Open | Closing | Closed {
    predicate Live() { this == Connecting || this == Open || this == Closing }
  }

  /** Why `connect()` rejected. */
  datatype ConnectError = ConnectTimeout | JoinTimeout | JoinRefused(payload: Json)

  /** Where the `connect()` promise stands. */
  datatype Phase = Idle | AwaitingOpen | AwaitingJoin | Established | Failed(error: ConnectError) {
    predicate Settled() { this == Established || this.Failed? }
  }

  /** The events the client emits to its owner. */
  datatype Emitted = PrintCommand(payload: Option<Json>) | Disconnected

  /** What the environment can do to a client: socket events, timer expiries and
      inbound data (`None` is text that is not JSON). */
  datatype ClientEvent =
    | SocketOpened
    | OpenTimerFired
    | JoinTimerFired
    | Inbound(data: Option<Json>)
    | CloseStarted
    | SocketClosed
    | HeartbeatTimerFired(stamp: string)

  /** The part of a client's state that events read and change: everything but
      its identity, its URL and the envelopes it wrote. */
  datatype ClientView = ClientView(
    socket: SocketState,
    orphanClose: bool,
    connected: bool,
    heartbeatActive: bool,
    openTimer: bool,
    joinTimer: bool,
    joinListener: bool,
    phase: Phase)
  {
    /** Whether `e` can happen in this state. A socket event needs a socket in
        the matching ready state, and a timer event needs an armed timer. A
        socket that `disconnect` dropped can still deliver messages and its
        `close`. */
    predicate Enabled(e: ClientEvent) {
      match e
      case SocketOpened => socket == Connecting
      case OpenTimerFired => openTimer
      case JoinTimerFired => joinTimer
      case Inbound(_) => socket == Open || orphanClose
      case CloseStarted => socket == Open
      case SocketClosed => socket.Live() || orphanClose
      case HeartbeatTimerFired(_) => heartbeatActive
    }

    /** The join is still pending, but neither its timer nor its listener is
        left to settle it. */
    predicate Stalled() {
      phase == AwaitingJoin && !joinTimer && !joinListener
    }
  }

  /** What the join listener does with the first JSON message, as `Verdict`
      decides. An acceptance after the join already failed still sets
      `connected`. Only a join that resolves starts the heartbeat. */
  function Listen(v: ClientView, verdict: JoinVerdict): (r: ClientView)
    requires v.joinListener
    ensures !r.joinListener
    ensures r.phase == Established <==> v.phase == Established || (v.phase == AwaitingJoin && verdict == Accepted)
    ensures r.phase != v.phase ==> v.phase == AwaitingJoin && (verdict == Accepted || verdict.Refused?)
    ensures r.joinTimer <==> v.joinTimer && (verdict == Ignored || verdict == Threw(false))
    ensures r.connected <==> v.connected || verdict == Accepted
    ensures r.socket == v.socket && r.orphanClose == v.orphanClose && r.openTimer == v.openTimer
  {
    var w := v.(joinListener := false);
    match verdict
    case Ignored => w
    case Threw(cleared) => if cleared then w.(joinTimer := false) else w
    case Accepted =>
      if v.phase == AwaitingJoin then
        w.(joinTimer := false, connected := true, phase := Established, heartbeatActive := true)
      else w.(joinTimer := false, connected := true)
    case Refused(p) =>
      if v.phase == AwaitingJoin then w.(joinTimer := false, phase := Failed(JoinRefused(p)))
      else w.(joinTimer := false)
  }

  /** The state after event `e`. An event that cannot happen changes nothing.
      Only a pending `connect()` changes phase: a timer that rejects a promise
      already settled changes nothing. So a settled or stalled `connect()`
      stays as it is. */
  function StepView(v: ClientView, e: ClientEvent): (r: ClientView)
    ensures !v.Enabled(e) ==> r == v
    ensures r.phase != v.phase ==> v.phase == AwaitingOpen || v.phase == AwaitingJoin
    ensures v.phase != Idle ==> r.phase != Idle
    ensures v.Stalled() ==> r.Stalled()
    ensures r.orphanClose ==> v.orphanClose
    ensures v.Enabled(e) && e == SocketClosed ==> !r.connected && !r.heartbeatActive
  {
    if !v.Enabled(e) then v
    else match e
      case SocketOpened =>
        if v.phase == AwaitingOpen then
          v.(socket := Open, openTimer := false, joinListener := true, joinTimer := true, phase := AwaitingJoin)
        else v.(socket := Open)
      case OpenTimerFired =>
        v.(openTimer := false, phase := if v.phase == AwaitingOpen then Failed(ConnectTimeout) else v.phase)
      case JoinTimerFired =>
        v.(joinTimer := false, phase := if v.phase == AwaitingJoin then Failed(JoinTimeout) else v.phase)
      case Inbound(data) =>
        if data.None? || !v.joinListener then v else Listen(v, Verdict(data.value))
      case CloseStarted => v.(socket := Closing)
      case SocketClosed =>
        var w := v.(connected := false, heartbeatActive := false);
        if v.socket.Live() then w.(socket := Closed) else w.(orphanClose := false)
      case HeartbeatTimerFired(_) =>
        if v.socket == Open then v else v.(heartbeatActive := false)
  }

  class PhoenixClient {
    const serverUrl: string
    const authToken: string
    const deviceId: string

    /** The URL the socket was opened on, once `connect` ran. */
    var url: Option<string>
    var socket: SocketState
    /** A socket that `disconnect` closed and dropped still delivers its `close`. */
    var orphanClose: bool
    var connected: bool
    /** `heartbeatInterval !== null` */
    var heartbeatActive: bool
    /** The 10 s socket-open timer and the 5 s join timer, while armed. */
    var openTimer: bool
    var joinTimer: bool
    /** The `once('message')` join listener, until it has seen one message. */
    var joinListener: bool
    var phase: Phase
    /** Every envelope written to the socket, oldest first. */
    var sent: seq<Envelope>

    ghost predicate Valid()
      reads this
    {
      && (phase == Idle ==> socket == NoSocket && !orphanClose && url.None? && sent == [] && !connected)
      && (|sent| > 0 ==> sent[0] == JoinEnvelope(deviceId, authToken))
      && (openTimer <==> phase == AwaitingOpen)
      && (joinTimer ==> phase == AwaitingJoin)
      && (joinListener && phase == AwaitingJoin ==> joinTimer)
      && (joinListener ==> |sent| > 0)
      && (heartbeatActive ==> phase == Established && connected)
      && (connected ==> |sent| > 0 && (socket == Open || socket == Closing || orphanClose))
      && (orphanClose ==> socket == NoSocket)
    }

    /** The state events act on, as a value. */
    function View(): (v: ClientView)
      reads this
      ensures v.socket == socket && v.orphanClose == orphanClose && v.connected == connected
      ensures v.heartbeatActive == heartbeatActive && v.openTimer == openTimer
      ensures v.joinTimer == joinTimer && v.joinListener == joinListener && v.phase == phase
    {
      ClientView(socket, orphanClose, connected, heartbeatActive, openTimer, joinTimer, joinListener, phase)
    }

    constructor (serverUrl: string, authToken: string, deviceId: string)
      ensures Valid()
      ensures this.serverUrl == serverUrl && this.authToken == authToken && this.deviceId == deviceId
      ensures url == None && socket == NoSocket && !orphanClose && !connected && !heartbeatActive
      ensures !openTimer && !joinTimer && !joinListener && phase == Idle && sent == []
    {
      this.serverUrl := serverUrl;
      this.authToken := authToken;
      this.deviceId := deviceId;
      url := None;
      socket := NoSocket;
      orphanClose := false;
      connected := false;
      heartbeatActive := false;
      openTimer := false;
      joinTimer := false;
      joinListener := false;
      phase := Idle;
      sent := [];
    }

    /** `isConnected()`: the flag and an open socket. */
    function IsConnected(): (b: bool)
      reads this
      ensures b <==> connected && socket == Open
    {
      connected && socket == Open
    }

    /** The part of `connect()` before the first `await`: open the socket and arm
        the open timer. */
    method Connect()
      requires Valid() && phase == Idle
      modifies this
      ensures Valid()
      ensures url == Some(SocketUrl(serverUrl)) && socket == Connecting && openTimer
      ensures phase == AwaitingOpen && sent == [] && !connected && !heartbeatActive
      ensures !joinTimer && !joinListener && orphanClose == old(orphanClose)
    {
      url := Some(SocketUrl(serverUrl));
      socket := Connecting;
      openTimer := true;
      phase := AwaitingOpen;
    }

    /** The socket's `open` event. If the open timer is still armed the wait
        resolves and `joinChannel` sends the join and arms the join timer; after
        the timeout the late open changes nothing else. */
    method OnOpen()
      requires Valid() && socket == Connecting
      modifies this
      ensures Valid()
      ensures socket == Open && !openTimer
      ensures old(phase) == AwaitingOpen ==>
        sent == old(sent) + [JoinEnvelope(deviceId, authToken)] && joinListener && joinTimer &&
        phase == AwaitingJoin
      ensures old(phase) != AwaitingOpen ==>
        sent == old(sent) && joinListener == old(joinListener) && joinTimer == old(joinTimer) &&
        phase == old(phase)
      ensures connected == old(connected) && heartbeatActive == old(heartbeatActive)
      ensures url == old(url) && orphanClose == old(orphanClose)
    {
      socket := Open;
      if phase == AwaitingOpen {
        openTimer := false;
        sent := sent + [JoinEnvelope(deviceId, authToken)];
        joinListener := true;
        joinTimer := true;
        phase := AwaitingJoin;
      }
    }

    /** The 10 s open timer fires: `connect()` rejects; the socket is left as it is. */
    method OnOpenTimeout()
      requires Valid() && openTimer
      modifies this
      ensures Valid()
      ensures !openTimer && phase == Failed(ConnectTimeout)
      ensures socket == old(socket) && sent == old(sent) && connected == old(connected)
      ensures heartbeatActive == old(heartbeatActive) && joinTimer == old(joinTimer)
      ensures joinListener == old(joinListener) && url == old(url) && orphanClose == old(orphanClose)
    {
      openTimer := false;
      phase := Failed(ConnectTimeout);
    }

    /** The 5 s join timer fires: `connect()` rejects, the socket stays open and
        the join listener, if it has not seen a message yet, stays registered. */
    method OnJoinTimeout()
      requires Valid() && joinTimer
      modifies this
      ensures Valid()
      ensures !joinTimer && phase == Failed(JoinTimeout)
      ensures socket == old(socket) && sent == old(sent) && connected == old(connected)
      ensures heartbeatActive == old(heartbeatActive) && openTimer == old(openTimer)
      ensures joinListener == old(joinListener) && url == old(url) && orphanClose == old(orphanClose)
    {
      joinTimer := false;
      phase := Failed(JoinTimeout);
    }

    /** The join listener's effect on a message, given the `Verdict` on it. An
        acceptance after the join already timed out still sets `connected`, but
        the heartbeat is only started by a join that resolves. */
    method JoinListen(verdict: JoinVerdict)
      requires Valid() && joinListener && (socket == Open || orphanClose)
      modifies this
      ensures Valid()
      ensures View() == Listen(old(View()), verdict)
      ensures verdict == Threw(true) && old(phase) == AwaitingJoin ==> Stalled()
      ensures sent == old(sent) && url == old(url)
    {
      ghost var before := View();
      joinListener := false;
      match verdict {
        case Ignored =>
          assert View() == before.(joinListener := false);
        case Threw(cleared) =>
          if cleared {
            joinTimer := false;
          }
        case Accepted =>
          joinTimer := false;
          connected := true;
          if phase == AwaitingJoin {
            phase := Established;
            heartbeatActive := true;
          }
        case Refused(p) =>
          joinTimer := false;
          if phase == AwaitingJoin {
            phase := Failed(JoinRefused(p));
          }
      }
    }

    /** The socket's `message` event. Text that is not JSON is only logged. A
        JSON message goes first to the join listener, if one is registered; if
        that listener raised, `handleMessage` stops there. Otherwise
        `print_html` is emitted with its payload. */
    method OnMessage(data: Option<Json>) returns (out: seq<Emitted>)
      requires Valid() && (socket == Open || orphanClose)
      modifies this
      ensures Valid()
      ensures View() ==
        if data.Some? && old(joinListener) then Listen(old(View()), Verdict(data.value)) else old(View())
      ensures data.None? ==>
        out == [] && joinListener == old(joinListener) && phase == old(phase) &&
        connected == old(connected) && joinTimer == old(joinTimer) && heartbeatActive == old(heartbeatActive)
      ensures phase == old(phase) || (old(phase) == AwaitingJoin && old(joinListener))
      ensures old(phase) != Established && phase == Established ==> connected
      ensures data.Some? && old(joinListener) ==> !joinListener
      ensures data.Some? && old(joinListener) && Verdict(data.value).Threw? ==> out == []
      ensures data.Some? && !(old(joinListener) && Verdict(data.value).Threw?) ==>
        out == match Route(data.value) case NoDispatch => [] case PrintHtml(p) => [PrintCommand(p)]
      ensures data.Some? && !old(joinListener) ==>
        joinListener == old(joinListener) && phase == old(phase) && connected == old(connected) &&
        joinTimer == old(joinTimer) && heartbeatActive == old(heartbeatActive)
      ensures socket == old(socket) && sent == old(sent) && openTimer == old(openTimer)
      ensures url == old(url) && orphanClose == old(orphanClose)
    {
      out := [];
      if data.None? {
        return;
      }
      var message := data.value;
      if joinListener {
        var verdict := Verdict(message);
        JoinListen(verdict);
        if verdict.Threw? {
          return;
        }
      }
      match Route(message)
      case NoDispatch =>
      case PrintHtml(p) => out := [PrintCommand(p)];
    }

    /** `sendMessage`: nothing unless connected, else exactly one envelope. */
    method SendMessage(event: string, payload: Json, stamp: string)
      requires Valid()
      modifies this
      ensures Valid()
      ensures sent == old(sent) + (if old(IsConnected()) then [OutboundEnvelope(deviceId, event, payload, stamp)] else [])
      ensures socket == old(socket) && connected == old(connected) && heartbeatActive == old(heartbeatActive)
      ensures phase == old(phase) && openTimer == old(openTimer) && joinTimer == old(joinTimer)
      ensures joinListener == old(joinListener) && url == old(url) && orphanClose == old(orphanClose)
    {
      if !IsConnected() {
        return;
      }
      sent := sent + [OutboundEnvelope(deviceId, event, payload, stamp)];
    }

    /** One heartbeat interval tick: a heartbeat on an open socket, otherwise the
        heartbeat stops. */
    method OnHeartbeat(stamp: string)
      requires Valid() && heartbeatActive
      modifies this
      ensures Valid()
      ensures old(socket) == Open ==> sent == old(sent) + [HeartbeatEnvelope(stamp)] && heartbeatActive
      ensures old(socket) != Open ==> sent == old(sent) && !heartbeatActive
      ensures socket == old(socket) && connected == old(connected) && phase == old(phase)
      ensures openTimer == old(openTimer) && joinTimer == old(joinTimer)
      ensures joinListener == old(joinListener) && url == old(url) && orphanClose == old(orphanClose)
    {
      if socket == Open {
        sent := sent + [HeartbeatEnvelope(stamp)];
      } else {
        StopHeartbeat();
      }
    }

    /** `stopHeartbeat`: idempotent. */
    method StopHeartbeat()
      requires Valid()
      modifies this
      ensures Valid() && !heartbeatActive
      ensures socket == old(socket) && connected == old(connected) && phase == old(phase) && sent == old(sent)
      ensures openTimer == old(openTimer) && joinTimer == old(joinTimer)
      ensures joinListener == old(joinListener) && url == old(url) && orphanClose == old(orphanClose)
    {
      heartbeatActive := false;
    }

    /** The peer starts the closing handshake: the ready state becomes CLOSING. */
    method OnCloseStarted()
      requires Valid() && socket == Open
      modifies this
      ensures Valid() && socket == Closing
      ensures connected == old(connected) && heartbeatActive == old(heartbeatActive) && phase == old(phase)
      ensures sent == old(sent) && openTimer == old(openTimer) && joinTimer == old(joinTimer)
      ensures joinListener == old(joinListener) && url == old(url) && orphanClose == old(orphanClose)
    {
      socket := Closing;
    }

    /** The `close` handler, for the current socket or for one `disconnect`
        dropped: not connected, no heartbeat, and `disconnect` emitted. */
    method OnClose() returns (out: seq<Emitted>)
      requires Valid() && (socket.Live() || orphanClose)
      modifies this
      ensures Valid()
      ensures !connected && !heartbeatActive && out == [Disconnected]
      ensures old(socket.Live()) ==> socket == Closed && orphanClose == old(orphanClose)
      ensures !old(socket.Live()) ==> socket == old(socket) && !orphanClose
      ensures phase == old(phase) && sent == old(sent) && openTimer == old(openTimer)
      ensures joinTimer == old(joinTimer) && joinListener == old(joinListener) && url == old(url)
    {
      StopHeartbeat();
      connected := false;
      if socket.Live() {
        socket := Closed;
      } else {
        orphanClose := false;
      }
      out := [Disconnected];
    }

    /** `disconnect`: stop the heartbeat, close and drop the socket, clear the
        flag. Calling it again changes nothing. */
    method Disconnect()
      requires Valid()
      modifies this
      ensures Valid()
      ensures socket == NoSocket && !connected && !heartbeatActive && !IsConnected()
      ensures orphanClose == (old(orphanClose) || old(socket.Live()))
      ensures phase == old(phase) && sent == old(sent) && openTimer == old(openTimer)
      ensures joinTimer == old(joinTimer) && joinListener == old(joinListener) && url == old(url)
    {
      StopHeartbeat();
      if socket != NoSocket {
        if socket.Live() {
          orphanClose := true;
        }
        socket := NoSocket;
      }
      connected := false;
    }

    /** Nothing else happens while `connect()` is pending, so the timer still
        armed fires: the open timer before the socket opened, the join timer
        after. */
    method AwaitTimer()
      requires Valid()
      modifies this
      ensures Valid()
      ensures View() == Expire(old(View()))
      ensures old(phase) != Idle ==> phase.Settled() || Stalled()
      ensures sent == old(sent) && url == old(url)
    {
      if !phase.Settled() && !Stalled() {
        if openTimer {
          OnOpenTimeout();
        } else if joinTimer {
          OnJoinTimeout();
        }
      }
    }

    /** The join is still pending but neither its timer nor its listener is
        left to settle it. */
    predicate Stalled()
      reads this
    {
      View().Stalled()
    }

    /** Whether `e` can happen in the current state. */
    predicate Enabled(e: ClientEvent)
      reads this
    {
      View().Enabled(e)
    }

    /** What delivering `e` in the current state emits to the owner: `disconnect`
        on a close, `print_html` for an inbound print command unless the join
        listener raised first, nothing otherwise. */
    function Emits(e: ClientEvent): (out: seq<Emitted>)
      reads this
      ensures |out| <= 1
      ensures Disconnected in out <==> Enabled(e) && e == SocketClosed
      ensures out != [] && out[0].PrintCommand? ==>
        e.Inbound? && e.data.Some? && Route(e.data.value) == PrintHtml(out[0].payload)
    {
      if !Enabled(e) then []
      else match e
        case SocketClosed => [Disconnected]
        case Inbound(data) =>
          if data.None? || (joinListener && Verdict(data.value).Threw?) then []
          else (match Route(data.value) case NoDispatch => [] case PrintHtml(p) => [PrintCommand(p)])
        case _ => []
    }

    /** Deliver one event to the client; an event that cannot happen now is
        ignored. */
    method Deliver(e: ClientEvent) returns (out: seq<Emitted>)
      requires Valid()
      modifies this
      ensures Valid()
      ensures View() == StepView(old(View()), e)
      ensures !old(Enabled(e)) ==> out == [] && unchanged(this)
      ensures out == old(Emits(e))
      ensures e.Inbound? ==> sent == old(sent)
      ensures old(phase) != Established && phase == Established ==> connected && (socket == Open || old(orphanClose))
      ensures |sent| >= |old(sent)| && sent[..|old(sent)|] == old(sent)
      ensures url == old(url)
    {
      out := [];
      if !Enabled(e) {
        return;
      }
      match e
      case SocketOpened => OnOpen();
      case OpenTimerFired => OnOpenTimeout();
      case JoinTimerFired => OnJoinTimeout();
      case Inbound(data) => out := OnMessage(data);
      case CloseStarted => OnCloseStarted();
      case SocketClosed => out := OnClose();
      case HeartbeatTimerFired(stamp) => OnHeartbeat(stamp);
    }
  }

  /** The events of `script` in order, up to the one that settles the
      connection. Later events reach a client whose `connect()` has already
      returned. */
  function Run(v: ClientView, script: seq<ClientEvent>): (r: ClientView)
    ensures v.phase.Settled() ==> r == v
    ensures v.phase != Idle ==> r.phase != Idle
    ensures v.Stalled() ==> r.Stalled()
    decreases |script|
  {
    if script == [] || v.phase.Settled() then v
    else Run(StepView(v, script[0]), script[1..])
  }

  /** Once nothing else happens, a `connect()` that is still pending waits for
      the timer that is armed: the open timer if the socket never opened, the
      join timer otherwise. */
  function Expire(v: ClientView): (r: ClientView)
    ensures r.phase == Established <==> v.phase == Established
    ensures r.phase != v.phase ==> r.phase == Failed(ConnectTimeout) || r.phase == Failed(JoinTimeout)
  {
    if v.phase.Settled() || v.Stalled() then v
    else if v.openTimer then StepView(v, OpenTimerFired)
    else StepView(v, JoinTimerFired)
  }

  /** A client whose `connect()` has just opened its socket and armed the open
      timer. */
  const Opening := ClientView(Connecting, false, false, false, true, false, false, AwaitingOpen)

  /** A client that has just sent its join and armed the join timer. */
  const Joining := ClientView(Open, false, false, false, false, true, true, AwaitingJoin)

  /** Where `connect()` ends when `script` is everything that happens after it
      opened the socket. */
  function Awaited(script: seq<ClientEvent>): ClientView {
    Expire(Run(Opening, script))
  }

  /** The socket opens before the open timer fires and before it closes. */
  predicate OpensFirst(script: seq<ClientEvent>) {
    if script == [] then false
    else match script[0]
      case SocketOpened => true
      case OpenTimerFired | SocketClosed => false
      case _ => OpensFirst(script[1..])
  }

  /** The socket opens in time, and then the join is accepted in time. */
  predicate OpensInTime(script: seq<ClientEvent>) {
    if script == [] then false
    else match script[0]
      case SocketOpened => AcceptedInTime(script[1..])
      case OpenTimerFired | SocketClosed => false
      case _ => OpensInTime(script[1..])
  }

  /** The first JSON message is an accepted join reply. It arrives before the
      join timer fires and before the socket starts to close. */
  predicate AcceptedInTime(script: seq<ClientEvent>) {
    if script == [] then false
    else match script[0]
      case Inbound(data) =>
        if data.None? then AcceptedInTime(script[1..]) else Verdict(data.value) == Accepted
      case JoinTimerFired | CloseStarted | SocketClosed => false
      case _ => AcceptedInTime(script[1..])
  }

  /** A pending `connect()` that can no longer resolve. Either the socket
      closed before it opened, or no message can reach the join listener. */
  predicate Doomed(v: ClientView) {
    && v.phase != Established && v.phase != Idle
    && (v.phase == AwaitingOpen ==> v.socket == Closed && !v.orphanClose)
    && (v.phase == AwaitingJoin && v.joinListener ==>
          (v.socket == Closing || v.socket == Closed) && !v.orphanClose)
  }

  lemma DoomedStep(v: ClientView, e: ClientEvent)
    requires Doomed(v) && !v.phase.Settled()
    ensures Doomed(StepView(v, e))
  {
  }

  lemma {:induction false} DoomedRun(v: ClientView, script: seq<ClientEvent>)
    requires Doomed(v)
    ensures Run(v, script).phase != Established
    decreases |script|
  {
    if script != [] && !v.phase.Settled() {
      DoomedStep(v, script[0]);
      DoomedRun(StepView(v, script[0]), script[1..]);
    }
  }

  /** After the join is sent, `connect()` resolves exactly when the first JSON
      message is an accepted reply and nothing stops the wait before it. */
  lemma {:induction false} JoiningRun(script: seq<ClientEvent>)
    ensures Run(Joining, script).phase == Established <==> AcceptedInTime(script)
    decreases |script|
  {
    if script != [] {
      var w := StepView(Joining, script[0]);
      match script[0]
      case Inbound(data) =>
        if data.None? {
          JoiningRun(script[1..]);
        } else if Verdict(data.value) != Accepted && !Verdict(data.value).Refused? {
          DoomedRun(w, script[1..]);
        }
      case CloseStarted =>
        DoomedRun(w, script[1..]);
      case SocketClosed =>
        DoomedRun(w, script[1..]);
      case JoinTimerFired =>
      case SocketOpened =>
        JoiningRun(script[1..]);
      case OpenTimerFired =>
        JoiningRun(script[1..]);
      case HeartbeatTimerFired(_) =>
        JoiningRun(script[1..]);
    }
  }

  /** From a freshly opened socket, `connect()` resolves exactly when the
      socket opens in time and then the join is accepted in time. */
  lemma {:induction false} OpeningRun(script: seq<ClientEvent>)
    ensures Run(Opening, script).phase == Established <==> OpensInTime(script)
    decreases |script|
  {
    if script != [] {
      var w := StepView(Opening, script[0]);
      match script[0]
      case SocketOpened =>
        assert w == Joining;
        JoiningRun(script[1..]);
      case SocketClosed =>
        DoomedRun(w, script[1..]);
      case OpenTimerFired =>
      case JoinTimerFired =>
        OpeningRun(script[1..]);
      case Inbound(_) =>
        OpeningRun(script[1..]);
      case CloseStarted =>
        OpeningRun(script[1..]);
      case HeartbeatTimerFired(_) =>
        OpeningRun(script[1..]);
    }
  }

  /** `connect()` resolves exactly when the socket opens before its timer, and
      then an accepted join reply is the first JSON message and arrives before
      the join timer and before any close. */
  lemma ConnectsIff(script: seq<ClientEvent>)
    ensures Awaited(script).phase == Established <==> OpensInTime(script)
  {
    OpeningRun(script);
  }

  /** The socket has opened in time: the open timer is spent and can no longer
      reject. */
  predicate Opened(v: ClientView) {
    !v.openTimer && v.phase != Idle && v.phase != AwaitingOpen && v.phase != Failed(ConnectTimeout)
  }

  lemma OpenedStep(v: ClientView, e: ClientEvent)
    requires Opened(v)
    ensures Opened(StepView(v, e))
  {
  }

  lemma {:induction false} OpenedRun(v: ClientView, script: seq<ClientEvent>)
    requires Opened(v)
    ensures Opened(Run(v, script))
    decreases |script|
  {
    if script != [] && !v.phase.Settled() {
      OpenedStep(v, script[0]);
      OpenedRun(StepView(v, script[0]), script[1..]);
    }
  }

  /** The socket closed before it opened, so only the open timer is left to
      settle `connect()`. Or it already has. */
  predicate ClosedUnopened(v: ClientView) {
    || v.phase == Failed(ConnectTimeout)
    || (v.phase == AwaitingOpen && v.openTimer && v.socket == Closed && !v.orphanClose)
  }

  lemma ClosedStep(v: ClientView, e: ClientEvent)
    requires ClosedUnopened(v)
    ensures ClosedUnopened(StepView(v, e))
  {
  }

  lemma {:induction false} ClosedRun(v: ClientView, script: seq<ClientEvent>)
    requires ClosedUnopened(v)
    ensures ClosedUnopened(Run(v, script))
    decreases |script|
  {
    if script != [] && !v.phase.Settled() {
      ClosedStep(v, script[0]);
      ClosedRun(StepView(v, script[0]), script[1..]);
    }
  }

  /** `connect()` rejects with the connection timeout exactly when the socket
      does not open before the open timer fires or the socket closes. */
  lemma {:induction false} TimesOutIff(script: seq<ClientEvent>)
    ensures Awaited(script).phase == Failed(ConnectTimeout) <==> !OpensFirst(script)
    decreases |script|
  {
    if script != [] {
      var w := StepView(Opening, script[0]);
      match script[0]
      case SocketOpened =>
        assert Opened(w);
        OpenedRun(w, script[1..]);
        OpenedStep(Run(w, script[1..]), JoinTimerFired);
      case SocketClosed =>
        ClosedRun(w, script[1..]);
      case OpenTimerFired =>
      case JoinTimerFired =>
        TimesOutIff(script[1..]);
      case Inbound(_) =>
        TimesOutIff(script[1..]);
      case CloseStarted =>
        TimesOutIff(script[1..]);
      case HeartbeatTimerFired(_) =>
        TimesOutIff(script[1..]);
    }
  }
}
