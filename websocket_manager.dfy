/** The connection supervisor of lib/websocket/websocket_manager.js: `connect`
    over a fresh Phoenix client, the bounded retry with its backoff schedule,
    the 30 s auto-reconnect interval and the `print_completed` acknowledgement
    of a print command.

    What the environment does (socket events, timer expiries, inbound data) is
    a parameter: `connect` is given the script of events its client sees until
    the connection settles, the printer's readiness and print outcome are a
    `Printer` value, and clocks are opaque stamps. Clients that `connect` or
    `disconnect` let go of are kept in `dropped`, because their listeners still
    call back into the manager. */
module Supervisor {
  import opened Wrappers
  import opened Json
  import opened Phoenix
  import Auth

  const MaxRetries := 5
  const InitialDelay := 2000
  const ReconnectPeriod := 30000

  function Pow(b: nat, e: nat): (r: nat)
    ensures r >= 1 || b == 0
  {
    if e == 0 then 1 else b * Pow(b, e - 1)
  }

  /** `initialDelay * Math.pow(1.5, i)`, as the integer `2000 * 3^i / 2^i`:
      never shorter than the initial delay. */
  function BackoffDelay(i: nat): (d: nat)
    ensures InitialDelay <= d
  {
    PowGrows(i);
    DivAtLeast(InitialDelay * Pow(3, i), Pow(2, i), InitialDelay);
    InitialDelay * Pow(3, i) / Pow(2, i)
  }

  lemma {:induction false} PowGrows(i: nat)
    ensures 0 < Pow(2, i) <= Pow(3, i)
  {
    if i > 0 {
      PowGrows(i - 1);
    }
  }

  lemma DivAtLeast(x: nat, p: nat, k: nat)
    requires 0 < p && k * p <= x
    ensures k <= x / p
  {
    var q := x / p;
    assert x < q * p + p;
    assert k * p < (q + 1) * p;
    LessCancel(k, q + 1, p);
  }

  lemma {:induction false} LessCancel(a: nat, b: nat, p: nat)
    requires a * p < b * p
    ensures a < b
  {
    if b > 0 && a > 0 {
      LessCancel(a - 1, b - 1, p);
    }
  }

  /** For every attempt the retry loop can make the division is exact, so the
      integer delay is the floating-point one, and each delay is one and a half
      times the one before. */
  lemma BackoffExact(i: nat)
    requires i < MaxRetries
    ensures BackoffDelay(i) * Pow(2, i) == InitialDelay * Pow(3, i)
    ensures 0 < i ==> 2 * BackoffDelay(i) == 3 * BackoffDelay(i - 1)
  {
    assert Pow(3, 0) == 1 && Pow(3, 1) == 3 && Pow(3, 2) == 9 && Pow(3, 3) == 27 && Pow(3, 4) == 81;
    assert Pow(2, 0) == 1 && Pow(2, 1) == 2 && Pow(2, 2) == 4 && Pow(2, 3) == 8 && Pow(2, 4) == 16;
  }

  /** The sleeps of a retry run that made `n` attempts: none before the first,
      `BackoffDelay(i)` before attempt `i`. */
  function Waits(n: nat): (w: seq<nat>)
    ensures |w| == if n == 0 then 0 else n - 1
    ensures forall j :: 0 <= j < |w| ==> w[j] == BackoffDelay(j + 1)
  {
    if n <= 1 then [] else Waits(n - 1) + [BackoffDelay(n - 1)]
  }

  /** The full schedule: 3 s, 4.5 s, 6.75 s and 10.125 s, 24.375 s in all. */
  lemma WaitSchedule()
    ensures Waits(MaxRetries) == [3000, 4500, 6750, 10125]
    ensures Waits(MaxRetries)[0] + Waits(MaxRetries)[1] + Waits(MaxRetries)[2] + Waits(MaxRetries)[3] == 24375
  {
    var w := Waits(MaxRetries);
    assert Pow(3, 4) == 81 && Pow(2, 4) == 16;
    assert w[0] == 3000 && w[1] == 4500 && w[2] == 6750 && w[3] == 10125;
  }

  /** How one `connect()` ended: resolved, threw before creating a client,
      threw the client's connect error, or never settled (the join reply threw
      after clearing the join timer). */
  datatype Attempt = Connected | AuthRequired | Rejected(error: ConnectError) | Pending {
    predicate Failed() { this == AuthRequired || this.Rejected? }
  }

  /** An attempt that got past the credential check connected exactly when
      its events opened the socket in time and then accepted the join in
      time. */
  predicate Explained(a: Attempt, script: seq<ClientEvent>) {
    a != AuthRequired ==> (a == Connected <==> OpensInTime(script))
  }

  /** How `connectWithRetry()` ended: `true` after some attempts, `false` after
      all of them failed, or never (an attempt that never settles). */
  datatype RetryOutcome = Succeeded(attempts: nat) | GaveUp | Hung

  /** The printer as `deviceManager.getPrinter()` finds it, with the outcome its
      `printHtml` would have. */
  datatype Printer = NoPrinter | NotReady | Prints | Fails(message: string) {
    predicate Ready() { this == Prints || this.Fails? }
  }

  /** `payload.print_id`, when it is defined. */
  function PrintId(payload: Json): Option<Json> {
    match payload
    case JObj(fields) => if "print_id" in fields then Some(fields["print_id"]) else None
    case _ => None
  }

  /** The payload of the `print_completed` message `handlePrintCommand` sends, or
      `None` when reading `payload.print_id` throws first (a missing or null
      payload). An undefined `print_id` is left out, as `JSON.stringify` does. */
  function PrintAck(payload: Option<Json>, printer: Printer, iso: string): (ack: Option<Json>)
    ensures ack.None? <==> payload.None? || payload.value == JNull
    ensures ack.Some? ==> ack.value.JObj?
    ensures ack.Some? ==> ack.value.fields.Keys <= {"print_id", "status", "error", "timestamp"}
    ensures ack.Some? ==> HasField(ack.value, "timestamp", JStr(iso))
    ensures ack.Some? ==>
      HasField(ack.value, "status", JStr(if printer == Prints then "success" else "failed"))
    ensures ack.Some? ==> ("error" in ack.value.fields <==> printer != Prints)
    ensures ack.Some? && printer.Fails? ==> HasField(ack.value, "error", JStr(printer.message))
    ensures ack.Some? && !printer.Ready() ==> HasField(ack.value, "error", JStr("Printer not ready"))
    ensures ack.Some? ==> ("print_id" in ack.value.fields <==> PrintId(payload.value).Some?)
    ensures ack.Some? && PrintId(payload.value).Some? ==>
      HasField(ack.value, "print_id", PrintId(payload.value).value)
  {
    if payload.None? || payload.value == JNull then None
    else
      var stamped := map["timestamp" := JStr(iso)];
      var outcome := match printer
        case Prints => map["status" := JStr("success")]
        case Fails(message) => map["status" := JStr("failed"), "error" := JStr(message)]
        case _ => map["status" := JStr("failed"), "error" := JStr("Printer not ready")];
      var id := match PrintId(payload.value)
        case Some(v) => map["print_id" := v]
        case None => map[];
      Some(JObj(id + outcome + stamped))
  }

  /** What `sendMessage('print_completed', ack)` puts on the wire of a client
      that is, or is not, connected: nothing without an ack. */
  function AckEnvelopes(deviceId: string, ack: Option<Json>, connected: bool, stamp: string): (sent: seq<Envelope>)
    ensures |sent| <= 1
    ensures sent != [] <==> ack.Some? && connected
    ensures sent != [] ==> sent[0].event == "print_completed" && sent[0].payload == ack.value
  {
    if ack.Some? && connected then [OutboundEnvelope(deviceId, "print_completed", ack.value, stamp)] else []
  }

  /** `getStatus()` */
  datatype Status = Status(connected: bool, autoReconnectActive: bool)

  /** The timers a single handle keeps armed. */
  function TimerSet(handle: Option<nat>): set<nat> {
    match handle
    case Some(id) => {id}
    case None => {}
  }

  class WebSocketManager {
    const auth: Auth.AuthManager
    var phoenixClient: PhoenixClient?
    /** `reconnectInterval`: the handle of the armed interval, if any. */
    var reconnectInterval: Option<nat>
    /** Every reconnect interval that is armed, whether or not a handle to it
        is kept; handles are numbered by `nextTimerId`. */
    var liveTimers: set<nat>
    var nextTimerId: nat
    /** Clients this manager replaced or disconnected; their listeners still
        reach it. */
    var dropped: seq<PhoenixClient>

    ghost predicate Valid()
      reads this, phoenixClient, set c | c in dropped
    {
      && (phoenixClient != null ==> phoenixClient.Valid() && phoenixClient !in dropped)
      && (forall c :: c in dropped ==> c.Valid())
      && liveTimers == TimerSet(reconnectInterval)
      && (reconnectInterval.Some? ==> reconnectInterval.value < nextTimerId)
    }

    constructor (auth: Auth.AuthManager)
      ensures Valid()
      ensures this.auth == auth && phoenixClient == null && reconnectInterval == None
      ensures liveTimers == {} && dropped == []
    {
      this.auth := auth;
      phoenixClient := null;
      reconnectInterval := None;
      liveTimers := {};
      nextTimerId := 0;
      dropped := [];
    }

    /** `isConnected()` */
    function IsConnected(): (b: bool)
      reads this, phoenixClient
      ensures b <==> phoenixClient != null && phoenixClient.connected && phoenixClient.socket == Open
    {
      phoenixClient != null && phoenixClient.IsConnected()
    }

    /** `getStatus()`: auto-reconnect counts as active exactly while a reconnect
        timer is armed. */
    function GetStatus(): (s: Status)
      requires Valid()
      reads this, phoenixClient, set c | c in dropped
      ensures s.connected == IsConnected()
      ensures s.autoReconnectActive <==> liveTimers != {}
    {
      Status(IsConnected(), reconnectInterval.Some?)
    }

    /** `startAutoReconnect()`: clear the interval held, then arm a new one, so
        exactly one reconnect timer is armed afterwards. */
    method StartAutoReconnect()
      requires Valid()
      modifies this
      ensures Valid()
      ensures reconnectInterval == Some(old(nextTimerId)) && liveTimers == {old(nextTimerId)}
      ensures nextTimerId == old(nextTimerId) + 1
      ensures phoenixClient == old(phoenixClient) && dropped == old(dropped)
    {
      if reconnectInterval.Some? {
        liveTimers := liveTimers - {reconnectInterval.value};
      }
      var id := nextTimerId;
      nextTimerId := nextTimerId + 1;
      liveTimers := liveTimers + {id};
      reconnectInterval := Some(id);
    }

    /** `stopAutoReconnect()`: no reconnect timer is armed afterwards; calling it
        again changes nothing. */
    method StopAutoReconnect()
      requires Valid()
      modifies this
      ensures Valid()
      ensures reconnectInterval == None && liveTimers == {}
      ensures old(reconnectInterval).None? ==> unchanged(this)
      ensures nextTimerId == old(nextTimerId)
      ensures phoenixClient == old(phoenixClient) && dropped == old(dropped)
    {
      if reconnectInterval.Some? {
        liveTimers := liveTimers - {reconnectInterval.value};
        reconnectInterval := None;
      }
    }

    /** `handlePrintCommand(payload)`: unless reading `payload.print_id` throws,
        `printHtml` runs on a ready printer and then `sendMessage('print_completed',
        ack)` is called on the current client. `ack` is the payload built for that
        call; `printed` says whether `printHtml` ran. `threw` says the returned
        promise rejects: reading a property of a missing payload, or calling
        `sendMessage` on a `null` client, raises a TypeError (after a failed
        print, the `catch` raises it again). */
    method HandlePrintCommand(payload: Option<Json>, printer: Printer, stamp: string, iso: string)
      returns (ack: Option<Json>, printed: bool, threw: bool)
      requires Valid()
      modifies phoenixClient
      ensures Valid()
      ensures ack == PrintAck(payload, printer, iso)
      ensures printed <==> ack.Some? && printer.Ready()
      ensures threw <==> ack.None? || phoenixClient == null
      ensures phoenixClient != null ==>
        phoenixClient.sent == old(phoenixClient.sent) +
          AckEnvelopes(phoenixClient.deviceId, ack, old(phoenixClient.IsConnected()), stamp)
      ensures phoenixClient != null ==>
        phoenixClient.View() == old(phoenixClient.View()) && phoenixClient.url == old(phoenixClient.url)
    {
      ack := PrintAck(payload, printer, iso);
      printed := ack.Some? && printer.Ready();
      threw := ack.None? || phoenixClient == null;
      if !threw {
        phoenixClient.SendMessage("print_completed", ack.value, stamp);
      }
    }

    /** The manager's listeners on a client: `print_html` runs the print
        handler, whose rejection nobody awaits (`threw`), and `disconnect`
        starts auto-reconnect. */
    method Notify(em: Emitted, printer: Printer, stamp: string, iso: string) returns (threw: bool)
      requires Valid()
      modifies this, phoenixClient
      ensures Valid()
      ensures phoenixClient == old(phoenixClient) && dropped == old(dropped)
      ensures em == Disconnected ==> reconnectInterval.Some? && liveTimers == {reconnectInterval.value}
      ensures em.PrintCommand? ==> reconnectInterval == old(reconnectInterval)
      ensures threw <==> em.PrintCommand? && (PrintAck(em.payload, printer, iso).None? || phoenixClient == null)
      ensures em.PrintCommand? && phoenixClient != null ==>
        phoenixClient.sent == old(phoenixClient.sent) +
          AckEnvelopes(phoenixClient.deviceId, PrintAck(em.payload, printer, iso), old(phoenixClient.IsConnected()), stamp)
      ensures em == Disconnected && phoenixClient != null ==> phoenixClient.sent == old(phoenixClient.sent)
      ensures phoenixClient != null ==>
        phoenixClient.View() == old(phoenixClient.View()) && phoenixClient.url == old(phoenixClient.url)
    {
      match em
      case PrintCommand(payload) =>
        var _, _, t := HandlePrintCommand(payload, printer, stamp, iso);
        threw := t;
      case Disconnected =>
        StartAutoReconnect();
        threw := false;
    }

    /** `connect()`: without credentials it throws before creating a client;
        otherwise it replaces `phoenixClient` with a fresh client (the old one is
        not torn down), starts its connection and feeds it `script` until the
        connection settles. */
    method Connect(script: seq<ClientEvent>, printer: Printer, stamp: string, iso: string) returns (a: Attempt)
      requires Valid()
      modifies this
      ensures Valid()
      ensures a == AuthRequired <==> !auth.IsAuthenticated()
      ensures a == AuthRequired ==> unchanged(this)
      ensures a != AuthRequired ==>
        && phoenixClient != null && fresh(phoenixClient)
        && phoenixClient.serverUrl == auth.serverUrl
        && phoenixClient.authToken == auth.authToken.value && phoenixClient.deviceId == auth.deviceProxyId.value
        && phoenixClient.url == Some(SocketUrl(auth.serverUrl))
        && dropped == old(dropped) + (if old(phoenixClient) == null then [] else [old(phoenixClient)])
      ensures a == Connected ==> IsConnected()
      ensures a != AuthRequired ==>
        (a == Connected <==> phoenixClient.phase == Established) &&
        (a.Rejected? <==> phoenixClient.phase.Failed?) &&
        (a.Rejected? ==> phoenixClient.phase.error == a.error) &&
        (a == Pending <==> phoenixClient.Stalled())
      ensures a != AuthRequired ==> phoenixClient.View() == Awaited(script)
      ensures a != AuthRequired ==>
        (a == Connected <==> OpensInTime(script)) && (a == Rejected(ConnectTimeout) <==> !OpensFirst(script))
      ensures old(reconnectInterval).Some? ==> reconnectInterval.Some?
    {
      var data := auth.GetAuthData();
      if !(Auth.Present(data.authToken) && Auth.Present(data.deviceProxyId)) {
        return AuthRequired;
      }
      if phoenixClient != null {
        dropped := dropped + [phoenixClient];
      }
      var client := new PhoenixClient(data.serverUrl, data.authToken.value, data.deviceProxyId.value);
      phoenixClient := client;
      client.Connect();
      assert client.View() == Opening;
      Settle(client, script, printer, stamp, iso);
      ConnectsIff(script);
      TimesOutIff(script);
      a := match client.phase
        case Established => Connected
        case Failed(error) => Rejected(error)
        case _ => Pending;
    }

    /** The `await this.phoenixClient.connect()` of `connect()`: the client sees
        the events of `script` in order, its emits reach the manager's
        listeners, until its connection settles. Once the script is spent
        without that, the open or join timer still armed expires, so the
        connection ends settled, or stalled when no timer is left. The
        client ends where `Run` and `Expire` say; the listeners' work on it
        changes only what it sent. */
    method Settle(client: PhoenixClient, script: seq<ClientEvent>, printer: Printer, stamp: string, iso: string)
      requires Valid() && phoenixClient == client && client.phase != Idle && !client.phase.Settled()
      requires !client.orphanClose
      modifies this, client
      ensures Valid() && phoenixClient == client && dropped == old(dropped)
      ensures client.View() == Expire(Run(old(client.View()), script))
      ensures client.phase.Settled() || client.Stalled()
      ensures client.phase != Idle && client.url == old(client.url)
      ensures client.phase == Established ==> client.IsConnected()
      ensures old(reconnectInterval).Some? ==> reconnectInterval.Some?
    {
      var i := 0;
      while i < |script| && !client.phase.Settled()
        invariant Valid() && phoenixClient == client && dropped == old(dropped)
        invariant client.phase != Idle && client.url == old(client.url)
        invariant client.phase == Established ==> client.IsConnected()
        invariant old(reconnectInterval).Some? ==> reconnectInterval.Some?
        invariant 0 <= i <= |script| && !client.orphanClose
        invariant Run(client.View(), script[i..]) == Run(old(client.View()), script)
        decreases |script| - i
      {
        var _ := OnClientEvent(script[i], printer, stamp, iso);
        i := i + 1;
      }
      assert client.View() == Run(old(client.View()), script);
      client.AwaitTimer();
    }

    /** `connectWithRetry()`: up to five `connect` attempts with the backoff
        between them, stopping at the first that does not throw. After five
        failures it starts auto-reconnect and returns `false`. `scripts[i]` is
        what attempt `i` sees; `waits` are the sleeps taken. */
    method ConnectWithRetry(scripts: seq<seq<ClientEvent>>, printer: Printer, stamp: string, iso: string)
      returns (outcome: RetryOutcome, attempts: seq<Attempt>, waits: seq<nat>)
      requires Valid() && |scripts| == MaxRetries
      modifies this
      ensures Valid()
      ensures 1 <= |attempts| <= MaxRetries
      ensures forall j :: 0 <= j < |attempts| - 1 ==> attempts[j].Failed()
      ensures forall j :: 0 <= j < |attempts| ==> Explained(attempts[j], scripts[j])
      ensures waits == Waits(|attempts|)
      ensures outcome.Succeeded? <==> attempts[|attempts| - 1] == Connected
      ensures outcome.Succeeded? ==> outcome.attempts == |attempts| && IsConnected()
      ensures outcome == Hung <==> attempts[|attempts| - 1] == Pending
      ensures outcome == Hung ==> phoenixClient != null && phoenixClient.Stalled()
      ensures outcome == GaveUp <==> |attempts| == MaxRetries && attempts[MaxRetries - 1].Failed()
      ensures outcome == GaveUp ==> reconnectInterval.Some? && |liveTimers| == 1
    {
      attempts := [];
      waits := [];
      var i := 0;
      while i < MaxRetries && (i == 0 || attempts[i - 1].Failed())
        invariant 0 <= i <= MaxRetries && |attempts| == i && waits == Waits(i)
        invariant Valid()
        invariant forall j :: 0 <= j < i ==> Explained(attempts[j], scripts[j]) && (j < i - 1 ==> attempts[j].Failed())
        invariant 0 < i && attempts[i - 1] == Connected ==> IsConnected()
        invariant 0 < i && attempts[i - 1] == Pending ==> phoenixClient != null && phoenixClient.Stalled()
        decreases MaxRetries - i
      {
        var a, sleep := RetryAttempt(i, scripts[i], printer, stamp, iso);
        waits := waits + sleep;
        attempts := attempts + [a];
        i := i + 1;
      }
      var last := attempts[i - 1];
      if last == Connected {
        assert IsConnected();
        outcome := Succeeded(i);
      } else if last == Pending {
        assert phoenixClient != null && phoenixClient.Stalled();
        outcome := Hung;
      } else {
        StartAutoReconnect();
        outcome := GaveUp;
      }
    }

    /** Pass `i` of the retry loop: the backoff sleep, except before the first
        attempt, then one `connect`. */
    method RetryAttempt(i: nat, script: seq<ClientEvent>, printer: Printer, stamp: string, iso: string)
      returns (a: Attempt, sleep: seq<nat>)
      requires Valid()
      modifies this
      ensures Valid()
      ensures sleep == if i == 0 then [] else [BackoffDelay(i)]
      ensures Explained(a, script)
      ensures a == Connected ==> IsConnected()
      ensures a == Pending ==> phoenixClient != null && phoenixClient.Stalled()
    {
      var delay := BackoffDelay(i);
      sleep := if i > 0 then [delay] else [];
      a := Connect(script, printer, stamp, iso);
    }

    /** One tick of the reconnect interval. Authenticated and not connected: one
        `connect` attempt, and the interval stops if it succeeds. Connected:
        the interval stops. Otherwise nothing happens. `attempt` is the attempt
        made, if any. */
    method ReconnectTick(script: seq<ClientEvent>, printer: Printer, stamp: string, iso: string)
      returns (attempt: Option<Attempt>)
      requires Valid() && reconnectInterval.Some?
      modifies this
      ensures Valid()
      ensures attempt.Some? <==> old(auth.IsAuthenticated()) && !old(IsConnected())
      ensures attempt == Some(Connected) ==> reconnectInterval == None && liveTimers == {} && IsConnected()
      ensures attempt.Some? && attempt.value != Connected ==> reconnectInterval.Some?
      ensures attempt.Some? && attempt.value != AuthRequired ==> (attempt.value == Connected <==> OpensInTime(script))
      ensures attempt.None? && old(IsConnected()) ==> reconnectInterval == None && liveTimers == {}
      ensures attempt.None? && !old(IsConnected()) ==> unchanged(this)
    {
      if auth.IsAuthenticated() && !IsConnected() {
        var a := Connect(script, printer, stamp, iso);
        attempt := Some(a);
        if a == Connected {
          StopAutoReconnect();
        }
      } else {
        attempt := None;
        if IsConnected() {
          StopAutoReconnect();
        }
      }
    }

    /** A socket event, timer expiry or inbound message on the current client,
        passed on to the manager's listeners: a routed `print_html` is
        acknowledged on this client, and `threw` says the print handler
        rejected. */
    method OnClientEvent(e: ClientEvent, printer: Printer, stamp: string, iso: string) returns (threw: bool)
      requires Valid() && phoenixClient != null
      modifies this, phoenixClient
      ensures Valid() && phoenixClient == old(phoenixClient) && dropped == old(dropped)
      ensures var out := old(phoenixClient.Emits(e));
        threw <==> out != [] && out[0].PrintCommand? && PrintAck(out[0].payload, printer, iso).None?
      ensures var out := old(phoenixClient.Emits(e));
        out != [] && out[0].PrintCommand? ==>
          phoenixClient.sent == old(phoenixClient.sent) +
            AckEnvelopes(phoenixClient.deviceId, PrintAck(out[0].payload, printer, iso), phoenixClient.IsConnected(), stamp)
      ensures e == SocketClosed && old(phoenixClient.Enabled(e)) ==>
        !phoenixClient.connected && reconnectInterval.Some? && liveTimers == {reconnectInterval.value}
      ensures !(e == SocketClosed && old(phoenixClient.Enabled(e))) ==> reconnectInterval == old(reconnectInterval)
      ensures phoenixClient.View() == StepView(old(phoenixClient.View()), e) && phoenixClient.url == old(phoenixClient.url)
      ensures old(phoenixClient.phase) != Established && phoenixClient.phase == Established ==>
        phoenixClient.connected && (phoenixClient.socket == Open || old(phoenixClient.orphanClose))
    {
      var out := phoenixClient.Deliver(e);
      threw := false;
      if out != [] {
        threw := Notify(out[0], printer, stamp, iso);
      }
    }

    /** An event on a client this manager no longer holds: its listeners still
        run, so its `close` restarts auto-reconnect and its `print_html`
        acknowledges on the current client, or, after `disconnect` left no
        client, rejects with a TypeError nobody catches. */
    method OnDroppedClientEvent(k: nat, e: ClientEvent, printer: Printer, stamp: string, iso: string)
      returns (threw: bool)
      requires Valid() && k < |dropped|
      modifies this, dropped[k], phoenixClient
      ensures Valid() && phoenixClient == old(phoenixClient) && dropped == old(dropped)
      ensures var out := old(dropped[k].Emits(e));
        threw <==> (out != [] && out[0].PrintCommand? &&
                    (PrintAck(out[0].payload, printer, iso).None? || phoenixClient == null))
      ensures var out := old(dropped[k].Emits(e));
        out != [] && out[0].PrintCommand? && phoenixClient != null ==>
          phoenixClient.sent == old(phoenixClient.sent) +
            AckEnvelopes(phoenixClient.deviceId, PrintAck(out[0].payload, printer, iso), old(phoenixClient.IsConnected()), stamp)
      ensures e == SocketClosed && old(dropped[k].Enabled(e)) ==>
        reconnectInterval.Some? && liveTimers == {reconnectInterval.value}
      ensures !(e == SocketClosed && old(dropped[k].Enabled(e))) ==> reconnectInterval == old(reconnectInterval)
      ensures dropped[k].View() == StepView(old(dropped[k].View()), e)
    {
      var client := dropped[k];
      var out := client.Deliver(e);
      threw := false;
      if out != [] {
        threw := Notify(out[0], printer, stamp, iso);
      }
    }

    /** `sendCardScanned(cardData)`: one `card_scanned` message when connected,
        nothing otherwise. */
    method SendCardScanned(cardData: Json, stamp: string)
      requires Valid()
      modifies phoenixClient
      ensures Valid()
      ensures phoenixClient != null ==>
        phoenixClient.sent == old(phoenixClient.sent) +
          (if old(IsConnected())
           then [OutboundEnvelope(phoenixClient.deviceId, "card_scanned", JObj(map["card_data" := cardData]), stamp)]
           else [])
    {
      if IsConnected() {
        phoenixClient.SendMessage("card_scanned", JObj(map["card_data" := cardData]), stamp);
      }
    }

    /** `disconnect()`: stop auto-reconnect, disconnect and drop the client. */
    method Disconnect()
      requires Valid()
      modifies this, phoenixClient
      ensures Valid()
      ensures phoenixClient == null && reconnectInterval == None && liveTimers == {}
      ensures GetStatus() == Status(false, false)
      ensures dropped == old(dropped) + (if old(phoenixClient) == null then [] else [old(phoenixClient)])
      ensures old(phoenixClient) != null ==>
        !old(phoenixClient).connected && old(phoenixClient).socket == NoSocket &&
        old(phoenixClient).orphanClose == (old(phoenixClient.orphanClose) || old(phoenixClient.socket.Live()))
    {
      StopAutoReconnect();
      if phoenixClient != null {
        phoenixClient.Disconnect();
        dropped := dropped + [phoenixClient];
        phoenixClient := null;
      }
    }
  }
}
