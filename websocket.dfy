/** `usePondWebSocket` (hooks/use-websocket.ts): the connection state of the
    live feed, driven by the events of the sockets it creates and by its
    timers.  Each event is a method: a socket opening, closing with a code,
    failing or delivering a frame, a retry timer or the delayed connect of
    `reconnect` firing, and the `disconnect` and `reconnect` calls.  Whether
    the socket constructor throws, the close code and the frame are inputs.
    Sockets are numbered in creation order and keep their handlers after the
    hook has dropped them, as the source's do. */
module WebSocketHook {
  import opened Wrappers
  import opened Collections

  datatype Status = Connecting | Connected | Disconnected | Error

  /** `readyState` of one socket. */
  datatype ReadyState = Opening | Open | Closing | Closed

  /** A sensor reading; only the pond it belongs to matters here. */
  datatype Reading = Reading(pondId: string, payload: string)

  datatype AlertMessage = AlertMessage(pondId: string, severity: string, parameter: string)

  datatype Message =
    | SensorData(reading: Reading)
    | AlertData(alert: AlertMessage)
    | Pong
    | Other(kind: string)

  /** An incoming frame: text `JSON.parse` rejects, or a message. */
  datatype Frame = Unparsable | Parsed(message: Message)

  const MaxReconnectAttempts := 5
  const ReconnectDelay := 3000
  const ReconnectWait := 1000
  const PingInterval := 30000
  /** Code 1000, normal closure (section 7.4.1 of RFC 6455). */
  const NormalClosure := 1000
  const AlertsKept := 50

  /** `[alert, ...alerts.slice(0, 49)]`. */
  function PushAlert(alert: AlertMessage, alerts: seq<AlertMessage>): (r: seq<AlertMessage>)
    ensures |alerts| <= AlertsKept ==> |r| <= AlertsKept
    ensures |r| > 0 && r[0] == alert
    ensures r[1..] == if |alerts| < AlertsKept then alerts else alerts[..AlertsKept - 1]
  {
    [alert] + if |alerts| < AlertsKept then alerts else alerts[..AlertsKept - 1]
  }

  /** Pushing keeps every earlier alert, newest first, until 50 are held;
      from then on only the oldest is dropped. */
  lemma PushKeepsNewest(alert: AlertMessage, alerts: seq<AlertMessage>)
    requires |alerts| <= AlertsKept
    ensures |alerts| < AlertsKept ==> PushAlert(alert, alerts) == [alert] + alerts
    ensures |alerts| == AlertsKept ==> PushAlert(alert, alerts) == [alert] + alerts[..|alerts| - 1]
  {
  }

  class PondSocket {
    var status: Status
    /** Every socket created so far, by number. */
    var sockets: seq<ReadyState>
    /** `wsRef.current`. */
    var current: Option<nat>
    /** Retry timers scheduled and not yet fired or cleared. */
    var timers: set<nat>
    /** `reconnectTimeoutRef.current`: the last retry timer scheduled. */
    var timerRef: Option<nat>
    var nextTimer: nat
    /** The one-second connects `reconnect` has scheduled and not yet run. */
    var delayedConnects: nat
    /** `reconnectAttemptsRef.current`. */
    var attempts: nat
    var sensorData: Option<Reading>
    var alerts: seq<AlertMessage>
    var lastMessage: Option<Message>
    /** Whether scheduling a retry first clears the pending one; the source
        does not (see `StaleCloseRetriesSixTimes`). */
    const singleRetry: bool

    ghost predicate Valid()
      reads this
    {
      (current.Some? ==> current.value < |sockets| && sockets[current.value] in {Opening, Open})
      && |alerts| <= AlertsKept
      && (forall t :: t in timers ==> t < nextTimer)
      && (timerRef.Some? ==> timerRef.value < nextTimer)
      && (singleRetry ==> Bounded())
    }

    /** At most one retry is pending, and the retries made since the last
        open plus the pending one are at most five. */
    ghost predicate Bounded()
      reads this
    {
      (timers == {} || (timerRef.Some? && timers == {timerRef.value}))
      && attempts + |timers| <= MaxReconnectAttempts
    }

    /** `wsRef.current?.readyState === WebSocket.OPEN`. */
    predicate CurrentOpen()
      reads this
    {
      current.Some? && current.value < |sockets| && sockets[current.value] == Open
    }

    /** The ping interval sends a ping on a tick exactly when the status is
        connected and the current socket is open. */
    predicate ShouldPing()
      reads this
      ensures ShouldPing() ==> status == Connected && current.Some?
    {
      status == Connected && CurrentOpen()
    }

    /** The hook's first render: no socket, status disconnected, nothing
        received; with `autoConnect` it connects at once. */
    constructor(autoConnect: bool, created: bool, singleRetry: bool)
      ensures Valid() && this.singleRetry == singleRetry
      ensures attempts == 0 && timers == {} && timerRef == None && nextTimer == 0 && delayedConnects == 0
      ensures sensorData == None && alerts == [] && lastMessage == None
      ensures !autoConnect ==> status == Disconnected && sockets == [] && current == None
      ensures autoConnect && created ==> status == Connecting && sockets == [Opening] && current == Some(0)
      ensures autoConnect && !created ==> status == Error && sockets == [] && current == None
    {
      status := Disconnected;
      sockets := [];
      current := None;
      timers := {};
      timerRef := None;
      nextTimer := 0;
      delayedConnects := 0;
      attempts := 0;
      sensorData := None;
      alerts := [];
      lastMessage := None;
      this.singleRetry := singleRetry;
      new;
      if autoConnect {
        Connect(created);
      }
    }

    /** `connect`: nothing when the current socket is open; otherwise a new
        socket becomes the current one, or, when its constructor throws,
        the status is an error. */
    method Connect(created: bool)
      requires Valid()
      modifies this
      ensures Valid()
      ensures old(CurrentOpen()) ==> unchanged(this)
      ensures !old(CurrentOpen()) && created ==>
        status == Connecting && sockets == old(sockets) + [Opening] && current == Some(|old(sockets)|)
      ensures !old(CurrentOpen()) && !created ==>
        status == Error && sockets == old(sockets) && current == old(current)
      ensures unchanged(this`timers, this`timerRef, this`nextTimer, this`delayedConnects, this`attempts)
      ensures unchanged(this`sensorData, this`alerts, this`lastMessage)
    {
      if CurrentOpen() {
        return;
      }
      status := Connecting;
      if !created {
        status := Error;
        return;
      }
      current := Some(|sockets|);
      sockets := sockets + [Opening];
    }

    /** `onopen` of socket `s`: connected, and the attempts start again. */
    method OnOpen(s: nat)
      requires Valid() && s < |sockets| && sockets[s] == Opening
      modifies this
      ensures Valid()
      ensures status == Connected && attempts == 0 && sockets == old(sockets)[s := Open]
      ensures unchanged(this`current, this`timers, this`timerRef, this`nextTimer, this`delayedConnects)
      ensures unchanged(this`sensorData, this`alerts, this`lastMessage)
    {
      status := Connected;
      attempts := 0;
      sockets := sockets[s := Open];
    }

    /** Whether a close with `code` schedules a retry. */
    predicate Retries(code: int)
      reads this
    {
      code != NormalClosure && attempts < MaxReconnectAttempts
    }

    /** `onclose` of socket `s`, current or not: the hook drops its socket;
        an abnormal close with attempts left schedules one retry in three
        seconds, anything else leaves the hook disconnected. */
    method OnClose(s: nat, code: int)
      requires Valid() && s < |sockets| && sockets[s] != Closed
      modifies this
      ensures Valid()
      ensures sockets == old(sockets)[s := Closed] && current == None
      ensures old(Retries(code)) ==>
        status == Connecting && nextTimer == old(nextTimer) + 1 && timerRef == Some(old(nextTimer))
        && timers == (if singleRetry then {} else old(timers)) + {old(nextTimer)}
      ensures !old(Retries(code)) ==>
        status == Disconnected && unchanged(this`timers, this`timerRef, this`nextTimer)
      ensures unchanged(this`attempts, this`delayedConnects, this`sensorData, this`alerts, this`lastMessage)
    {
      sockets := sockets[s := Closed];
      current := None;
      if code != NormalClosure && attempts < MaxReconnectAttempts {
        ScheduleRetry();
      } else {
        status := Disconnected;
      }
    }

    /** The retry branch of `onclose`: connecting again, with a new timer
        set to fire in three seconds. */
    method ScheduleRetry()
      requires Valid() && current == None && attempts < MaxReconnectAttempts
      modifies this`status, this`timers, this`timerRef, this`nextTimer
      ensures Valid()
      ensures status == Connecting && nextTimer == old(nextTimer) + 1 && timerRef == Some(old(nextTimer))
      ensures timers == (if singleRetry then {} else old(timers)) + {old(nextTimer)}
    {
      status := Connecting;
      var t := nextTimer;
      timers := (if singleRetry then {} else timers) + {t};
      timerRef := Some(t);
      nextTimer := t + 1;
    }

    /** `onerror`: the status is an error; a pending retry stays. */
    method OnError(s: nat)
      requires Valid() && s < |sockets|
      modifies this`status
      ensures Valid() && status == Error
    {
      status := Error;
    }

    /** `onmessage`: a parsed frame becomes the last message; a reading
        replaces the sensor data, an alert goes in front of the kept alerts;
        a frame that does not parse changes nothing. */
    method OnMessage(s: nat, frame: Frame)
      requires Valid() && s < |sockets| && sockets[s] == Open
      modifies this`lastMessage, this`sensorData, this`alerts
      ensures Valid()
      ensures frame.Unparsable? ==> unchanged(this)
      ensures frame.Parsed? ==> lastMessage == Some(frame.message)
      ensures frame.Parsed? && frame.message.SensorData? ==> sensorData == Some(frame.message.reading)
      ensures !(frame.Parsed? && frame.message.SensorData?) ==> sensorData == old(sensorData)
      ensures frame.Parsed? && frame.message.AlertData? ==> alerts == PushAlert(frame.message.alert, old(alerts))
      ensures !(frame.Parsed? && frame.message.AlertData?) ==> alerts == old(alerts)
    {
      match frame
      case Unparsable =>
      case Parsed(message) =>
        lastMessage := Some(message);
        match message
        case SensorData(reading) => sensorData := Some(reading);
        case AlertData(alert) => alerts := PushAlert(alert, alerts);
        case Pong =>
        case Other(_) =>
    }

    /** A retry timer fires: one more attempt, then `connect`. */
    method RetryFires(t: nat, created: bool)
      requires Valid() && t in timers
      modifies this
      ensures Valid()
      ensures timers == old(timers) - {t} && attempts == old(attempts) + 1
      ensures old(CurrentOpen()) ==> status == old(status) && sockets == old(sockets) && current == old(current)
      ensures !old(CurrentOpen()) && created ==>
        status == Connecting && sockets == old(sockets) + [Opening] && current == Some(|old(sockets)|)
      ensures !old(CurrentOpen()) && !created ==>
        status == Error && sockets == old(sockets) && current == old(current)
      ensures unchanged(this`timerRef, this`nextTimer, this`delayedConnects)
      ensures unchanged(this`sensorData, this`alerts, this`lastMessage)
    {
      timers := timers - {t};
      attempts := attempts + 1;
      Connect(created);
    }

    /** `disconnect`: the current socket, if any, is closed and dropped,
        the last scheduled retry is cleared, and the hook is disconnected.
        The dropped socket's close event is still to come. */
    method Disconnect()
      requires Valid()
      modifies this
      ensures Valid()
      ensures status == Disconnected && current == None && timerRef == None
      ensures old(current).Some? ==> sockets == old(sockets)[old(current).value := Closing]
      ensures old(current).None? ==> sockets == old(sockets)
      ensures old(timerRef).Some? ==> timers == old(timers) - {old(timerRef).value}
      ensures old(timerRef).None? ==> timers == old(timers)
      ensures unchanged(this`nextTimer, this`delayedConnects, this`attempts)
      ensures unchanged(this`sensorData, this`alerts, this`lastMessage)
    {
      if current.Some? {
        sockets := sockets[current.value := Closing];
        current := None;
      }
      if timerRef.Some? {
        timers := timers - {timerRef.value};
        timerRef := None;
      }
      status := Disconnected;
    }

    /** `reconnect`: `disconnect`, the attempts start again, and a connect
        is scheduled in one second. */
    method Reconnect()
      requires Valid()
      modifies this
      ensures Valid()
      ensures status == Disconnected && current == None && timerRef == None && attempts == 0
      ensures delayedConnects == old(delayedConnects) + 1
      ensures old(current).Some? ==> sockets == old(sockets)[old(current).value := Closing]
      ensures old(current).None? ==> sockets == old(sockets)
      ensures old(timerRef).Some? ==> timers == old(timers) - {old(timerRef).value}
      ensures old(timerRef).None? ==> timers == old(timers)
      ensures unchanged(this`nextTimer, this`sensorData, this`alerts, this`lastMessage)
    {
      Disconnect();
      attempts := 0;
      delayedConnects := delayedConnects + 1;
    }

    /** The delayed connect of `reconnect` runs. */
    method ReconnectFires(created: bool)
      requires Valid() && delayedConnects > 0
      modifies this
      ensures Valid()
      ensures delayedConnects == old(delayedConnects) - 1
      ensures old(CurrentOpen()) ==> status == old(status) && sockets == old(sockets) && current == old(current)
      ensures !old(CurrentOpen()) && created ==>
        status == Connecting && sockets == old(sockets) + [Opening] && current == Some(|old(sockets)|)
      ensures !old(CurrentOpen()) && !created ==>
        status == Error && sockets == old(sockets) && current == old(current)
      ensures unchanged(this`timers, this`timerRef, this`nextTimer, this`attempts)
      ensures unchanged(this`sensorData, this`alerts, this`lastMessage)
    {
      delayedConnects := delayedConnects - 1;
      Connect(created);
    }
  }

  /** With a single pending retry at most five retries run between two
      opens, whatever the events. */
  lemma RetriesBounded(ws: PondSocket)
    requires ws.Valid() && ws.singleRetry
    ensures ws.attempts <= MaxReconnectAttempts
    ensures |ws.timers| <= 1
  {
    if ws.timers != {} {
      assert ws.timers == {ws.timerRef.value};
    }
  }

  /** As written, the close event of a socket dropped by `reconnect`
      schedules a retry beside the one the new socket's failure schedules;
      the two retry chains then run six retries after the last open. */
  method StaleCloseRetriesSixTimes() returns (ws: PondSocket)
    ensures !ws.singleRetry && ws.attempts == 6 && ws.Valid()
  {
    ws := new PondSocket(true, true, false);
    ws.OnOpen(0);
    ws.Reconnect();
    ws.ReconnectFires(true);
    // the socket dropped by reconnect closes without a status code (1005)
    ws.OnClose(0, 1005);
    ws.OnClose(1, 1006);
    BothChainsFail(ws);
    BothChainsFail(ws);
    ws.RetryFires(4, true);
    ws.RetryFires(5, true);
  }

  /** Two pending retries fire, and the two sockets they open fail: two
      retries are pending again and two more attempts are spent. */
  method BothChainsFail(ws: PondSocket)
    requires ws.Valid() && !ws.singleRetry && ws.current == None
    requires ws.timers == {ws.nextTimer - 2, ws.nextTimer - 1} && ws.attempts + 2 < MaxReconnectAttempts
    modifies ws
    ensures ws.Valid() && ws.current == None
    ensures ws.timers == {ws.nextTimer - 2, ws.nextTimer - 1} && ws.nextTimer == old(ws.nextTimer) + 2
    ensures ws.attempts == old(ws.attempts) + 2
  {
    var n := |ws.sockets|;
    ws.RetryFires(ws.nextTimer - 2, true);
    ws.RetryFires(ws.nextTimer - 1, true);
    ws.OnClose(n, 1006);
    ws.OnClose(n + 1, 1006);
  }

  /** `usePondData`: the sensor data when it is about `pondId`, and the
      alerts about `pondId` in order. */
  function PondView(sensorData: Option<Reading>, alerts: seq<AlertMessage>, pondId: string)
    : (r: (Option<Reading>, seq<AlertMessage>))
    ensures r.0.Some? <==> sensorData.Some? && sensorData.value.pondId == pondId
    ensures r.0.Some? ==> r.0 == sensorData
    ensures forall a :: a in r.1 <==> a in alerts && a.pondId == pondId
    ensures forall a :: multiset(r.1)[a] == if a.pondId == pondId then multiset(alerts)[a] else 0
    ensures r.1 == Filter(alerts, (a: AlertMessage) => a.pondId == pondId)
  {
    var reading := if sensorData.Some? && sensorData.value.pondId == pondId then sensorData else None;
    var mine := (a: AlertMessage) => a.pondId == pondId;
    assert forall a :: multiset(Filter(alerts, mine))[a] == if a.pondId == pondId then multiset(alerts)[a] else 0 by {
      forall a ensures multiset(Filter(alerts, mine))[a] == if a.pondId == pondId then multiset(alerts)[a] else 0 {
        FilterCounts(alerts, mine, a);
      }
    }
    (reading, Filter(alerts, mine))
  }

  /** The pond's alerts keep the order they arrived in: one more alert
      lands at the end of its own pond's list and leaves the others as they
      were. */
  lemma PondViewAppend(sensorData: Option<Reading>, alerts: seq<AlertMessage>, a: AlertMessage, pondId: string)
    ensures PondView(sensorData, alerts + [a], pondId).1
      == PondView(sensorData, alerts, pondId).1 + (if a.pondId == pondId then [a] else [])
  {
    FilterSnoc(alerts, a, (a: AlertMessage) => a.pondId == pondId);
  }

  /** `useConnectionStatus`'s colour. */
  function StatusColor(status: Status): string {
    match status
    case Connected => "text-green-500"
    case Connecting => "text-yellow-500"
    case Disconnected => "text-gray-500"
    case Error => "text-red-500"
  }

  /** `useConnectionStatus`'s text. */
  function StatusText(status: Status): string {
    match status
    case Connected => "Connected"
    case Connecting => "Connecting..."
    case Disconnected => "Disconnected"
    case Error => "Connection Error"
  }

  /** Different statuses have different texts and different colours. */
  lemma StatusTextsDiffer(a: Status, b: Status)
    ensures StatusText(a) == StatusText(b) ==> a == b
    ensures StatusColor(a) == StatusColor(b) ==> a == b
  {
  }

  /** `useConnectionStatus` makes its own hook without connecting: it stays
      disconnected, with no socket, until its `reconnect` is called. */
  method ConnectionStatusHook() returns (ws: PondSocket, text: string)
    ensures fresh(ws) && ws.Valid() && ws.status == Disconnected && ws.current == None && ws.sockets == []
    ensures text == "Disconnected"
  {
    ws := new PondSocket(false, true, false);
    text := StatusText(ws.status);
  }
}
