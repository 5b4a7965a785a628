/** The connection life cycle of the daemon client as a state machine over its events: calls
    from the application, transport callbacks, timers and inbound messages. Listeners are
    assumed not to call back into the client while an event is handled. */
module Connection {
  import opened Options
  import opened RequestLedger

  datatype Status = Idle | Connecting | Connected | Disconnected | Disposed

  const LIVENESS_FAILURE_RECONNECT_THRESHOLD: nat := 2

  datatype Config = Config(baseDelayMs: nat, maxDelayMs: nat)

  /** The three history fields record what the code itself does not keep: the delays of the
      reconnect timers armed since the client last connected, and how often the liveness check
      has torn the connection down. */
  datatype Client = Client(
    status: Status,
    hasTransport: bool,
    attached: bool,
    reconnectTimer: Option<nat>,
    connectTimer: bool,
    genericErrorTimer: bool,
    heartbeatTimer: bool,
    reconnectAttempt: nat,
    shouldReconnect: bool,
    reconnectEnabled: bool,
    connectPending: bool,
    livenessFailures: nat,
    ledger: Ledger,
    armings: seq<nat>,
    teardowns: nat)

  function NewClient(reconnectEnabled: bool): Client {
    Client(Idle, false, false, None, false, false, false, 0, true, reconnectEnabled, false, 0, EMPTY_LEDGER, [], 0)
  }

  /** How building a transport ends: it works, the factory throws, or attaching a handler throws. */
  datatype Attempt = Succeeds | FactoryThrows | AttachThrows

  datatype Event =
    | ConnectCall(attempt: Attempt)
    | EnsureConnectedCall(attempt: Attempt)
    | CloseCall
    | SetReconnectEnabled(on: bool)
    | RequestCall(requestId: string, timed: bool, sendThrows: bool)
    | DictationCall(waits: seq<bool>, sendThrows: bool)
    | CancelCall(id: nat)
    | LatencyCall(sendThrows: bool)
    | TransportOpened(helloSent: bool)
    | TransportClosed
    | TransportFailed(generic: bool)
    | GenericErrorTimerFired
    | ConnectTimerFired
    | ReconnectTimerFired(attempt: Attempt)
    | HeartbeatTimerFired(sendThrows: bool)
    | HeartbeatDone
    | RequestTimerFired(timer: Timer)
    | MalformedMessage(answers: Option<string>)
    | Pong
    | ServerInfo(matched: set<nat>, restored: seq<Resubscription>, resubscribeThrows: bool, failing: set<nat>)
    | SessionMessage(matched: set<nat>)
    | BinaryFrame(matched: set<nat>)

  // ----- Losing the connection -----

  function Power2(n: nat): (p: nat)
    ensures p >= 1
  {
    if n == 0 then 1 else 2 * Power2(n - 1)
  }

  /** The reconnect delay of attempt `n`. */
  function Delay(cfg: Config, n: nat): nat {
    var d := cfg.baseDelayMs * Power2(n);
    if d < cfg.maxDelayMs then d else cfg.maxDelayMs
  }

  function DisposeTransport(c: Client): Client {
    c.(heartbeatTimer := false, connectTimer := false, genericErrorTimer := false,
       attached := false, hasTransport := false)
  }

  function ArmReconnectTimer(cfg: Config, c: Client): Client {
    var delay := Delay(cfg, c.reconnectAttempt);
    c.(reconnectTimer := Some(delay), reconnectAttempt := c.reconnectAttempt + 1, armings := c.armings + [delay])
  }

  function ScheduleReconnect(cfg: Config, c: Client): Client {
    var cleared := c.(reconnectTimer := None, ledger := RejectAll(c.ledger));
    if c.status.Disposed? then cleared.(connectPending := false)
    else
      var lost := cleared.(status := Disconnected);
      if !c.shouldReconnect || !c.reconnectEnabled then lost.(connectPending := false)
      else ArmReconnectTimer(cfg, lost)
  }

  lemma ScheduleCases(cfg: Config, c: Client)
    ensures var cleared := c.(reconnectTimer := None);
            var bare := cleared.(ledger := RejectAll(c.ledger));
            var lost := bare.(status := Disconnected);
            ScheduleReconnect(cfg, c) ==
              if c.status.Disposed? then bare.(connectPending := false)
              else if !c.shouldReconnect || !c.reconnectEnabled then lost.(connectPending := false)
              else ArmReconnectTimer(cfg, lost)
  {
    hide RejectAll, ArmReconnectTimer;
  }

  // ----- Connecting -----

  function OpenTransport(c: Client): Client {
    DisposeTransport(c).(hasTransport := true, attached := true, status := Connecting, connectTimer := true)
  }

  function AttemptConnect(cfg: Config, c: Client, attempt: Attempt): Client {
    if c.status.Disposed? || !c.shouldReconnect then c.(connectPending := false)
    else if c.status.Connecting? then c
    else
      match attempt
      case Succeeds => OpenTransport(c)
      case FactoryThrows => ScheduleReconnect(cfg, DisposeTransport(c)).(connectPending := false)
      case AttachThrows =>
        var dialling := DisposeTransport(c).(hasTransport := true, status := Connecting);
        ScheduleReconnect(cfg, dialling).(connectPending := false)
  }

  function Connect(cfg: Config, c: Client, attempt: Attempt): Client {
    if c.status.Disposed? || c.status.Connected? || c.connectPending then c
    else AttemptConnect(cfg, c.(shouldReconnect := true), attempt).(connectPending := true)
  }

  function EnsureConnected(cfg: Config, c: Client, attempt: Attempt): Client {
    if c.status.Disposed? then c
    else
      var wanted := c.(shouldReconnect := true);
      if c.status.Connected? || c.status.Connecting? then wanted
      else
        var idle := wanted.(reconnectTimer := None);
        if c.connectPending then AttemptConnect(cfg, idle, attempt) else Connect(cfg, idle, attempt)
  }

  lemma EnsureConnectedCases(cfg: Config, c: Client, attempt: Attempt)
    ensures var idle := c.(shouldReconnect := true, reconnectTimer := None);
            EnsureConnected(cfg, c, attempt) ==
              if c.status.Disposed? then c
              else if c.status.Connected? || c.status.Connecting? then c.(shouldReconnect := true)
              else if c.connectPending then AttemptConnect(cfg, idle, attempt)
              else Connect(cfg, idle, attempt)
  {
    hide AttemptConnect, Connect;
  }

  function Close(c: Client): Client {
    if c.status.Disposed? then c
    else
      var quiet := DisposeTransport(c.(shouldReconnect := false, connectPending := false, reconnectTimer := None));
      quiet.(ledger := RejectAll(c.ledger), status := Disposed)
  }

  function EnableReconnect(c: Client, on: bool): Client {
    c.(reconnectEnabled := on, reconnectTimer := if on then c.reconnectTimer else None)
  }

  // ----- Transport callbacks and connection timers -----

  function OnOpen(cfg: Config, c: Client, helloSent: bool): Client {
    var ready := c.(genericErrorTimer := false);
    if helloSent && c.hasTransport then ready else ScheduleReconnect(cfg, ready)
  }

  function OnClose(cfg: Config, c: Client): Client {
    ScheduleReconnect(cfg, c.(connectTimer := false, genericErrorTimer := false))
  }

  function OnError(cfg: Config, c: Client, generic: bool): Client {
    if generic then c.(connectTimer := false, genericErrorTimer := true)
    else ScheduleReconnect(cfg, c.(connectTimer := false, genericErrorTimer := false))
  }

  function OnGenericErrorTimer(cfg: Config, c: Client): Client {
    var fired := c.(genericErrorTimer := false);
    if c.status.Connected? || c.status.Connecting? then ScheduleReconnect(cfg, fired) else fired
  }

  function OnConnectTimer(cfg: Config, c: Client): Client {
    var fired := c.(connectTimer := false);
    if c.status.Connecting? then ScheduleReconnect(cfg, DisposeTransport(fired)) else fired
  }

  function OnReconnectTimer(cfg: Config, c: Client, attempt: Attempt): Client {
    var fired := c.(reconnectTimer := None);
    if c.shouldReconnect then AttemptConnect(cfg, fired, attempt) else fired
  }

  // ----- Liveness -----

  function RecordLivenessFailure(cfg: Config, c: Client): Client {
    var n := c.livenessFailures + 1;
    if n < LIVENESS_FAILURE_RECONNECT_THRESHOLD then c.(livenessFailures := n)
    else ScheduleReconnect(cfg, DisposeTransport(c.(livenessFailures := 0, teardowns := c.teardowns + 1)))
  }

  lemma RecordCases(cfg: Config, c: Client)
    ensures RecordLivenessFailure(cfg, c) ==
            if c.livenessFailures + 1 < LIVENESS_FAILURE_RECONNECT_THRESHOLD
            then c.(livenessFailures := c.livenessFailures + 1)
            else ScheduleReconnect(cfg, DisposeTransport(c.(livenessFailures := 0, teardowns := c.teardowns + 1)))
  {
    hide ScheduleReconnect, DisposeTransport;
  }

  function SendPing(cfg: Config, c: Client, drives: bool, sendThrows: bool): Client {
    if !c.status.Connected? || !c.hasTransport || c.ledger.probe.Some? then c
    else
      var probing := c.(ledger := StartProbe(c.ledger, drives));
      if !sendThrows then probing
      else
        var failed := probing.(ledger := SettleProbe(probing.ledger, false));
        if drives then RecordLivenessFailure(cfg, failed) else failed
  }

  function ProbeTimedOut(cfg: Config, c: Client, id: nat): Client {
    match c.ledger.probe
    case Some(Probe(current, drives)) =>
      if current != id then c
      else
        var failed := c.(ledger := SettleProbe(c.ledger, false));
        if drives then RecordLivenessFailure(cfg, failed) else failed
    case None => c
  }

  function OnHeartbeatTimer(cfg: Config, c: Client, sendThrows: bool): Client {
    SendPing(cfg, c.(heartbeatTimer := false), true, sendThrows)
  }

  function OnHeartbeatDone(c: Client): Client {
    c.(heartbeatTimer := c.heartbeatTimer || c.status.Connected?)
  }

  function OnPong(c: Client): Client {
    c.(livenessFailures := 0, ledger := SettleProbe(c.ledger, true))
  }

  // ----- Requests -----

  function SendPath(c: Client, sendThrows: bool): Path {
    if c.hasTransport && c.status.Connected? then Direct(!sendThrows)
    else if c.status.Connecting? then Queued
    else Refused
  }

  function SendRequest(c: Client, requestId: string, timed: bool, sendThrows: bool): Client {
    c.(ledger := Request(c.ledger, requestId, timed, SendPath(c, sendThrows)))
  }

  /** A dictation call: one wait per element of `waits`, saying whether it has a timeout, then a send
      that is never queued. */
  function CallDictation(c: Client, waits: seq<bool>, sendThrows: bool): Client {
    c.(ledger := Dictate(c.ledger, waits, c.hasTransport && c.status.Connected? && !sendThrows))
  }

  function Settle(c: Client, sel: set<nat>, ok: bool): Client {
    c.(ledger := SettleWaiters(c.ledger, sel, ok))
  }

  function OnMalformed(c: Client, answers: Option<string>): Client {
    if answers.None? then c else Settle(c, Tagged(c.ledger.waiters, answers.value), false)
  }

  function RequestTimedOut(cfg: Config, c: Client, timer: Timer): Client {
    match timer
    case WaiterTimer(id) => Settle(c, {id}, false)
    case SendTimer(id) => c.(ledger := SettleWaiters(TimeOutSend(c.ledger, id), {id}, false))
    case ProbeTimer(id) => ProbeTimedOut(cfg, c, id)
  }

  // ----- Messages -----

  function Deliver(c: Client, matched: set<nat>): Client {
    Settle(c, matched, true).(livenessFailures := 0)
  }

  /** An accepted message is a sign of life, and the awaited one ends the connect timeout. */
  function Welcome(c: Client): Client {
    c.(livenessFailures := 0, connectTimer := false)
  }

  function ComeUp(c: Client): Client {
    c.(reconnectAttempt := 0, armings := [], status := Connected, heartbeatTimer := true)
  }

  /** The client makes its resubscription requests. */
  function Restore(c: Client, requests: seq<Resubscription>): Client {
    c.(ledger := ResubscribeEach(c.ledger, requests, c.hasTransport))
  }

  /** The queued sends a flush loses: those that throw, or all without a transport. */
  function Lost(c: Client, failing: set<nat>): set<nat> {
    if c.hasTransport then failing else Elements(c.ledger.queue)
  }

  /** The queue is flushed and the message resolves its waiters; afterwards the requests whose sends
      failed cancel theirs. */
  function ServeQueue(c: Client, matched: set<nat>, failing: set<nat>): Client {
    c.(ledger := Serve(c.ledger, matched, Lost(c, failing)), connectPending := false)
  }

  /** Server info makes a connecting client connected. An error thrown while resubscribing skips
      everything after it. */
  function HandleServerInfo(c: Client, matched: set<nat>, requests: seq<Resubscription>, resubscribeThrows: bool,
                            failing: set<nat>): Client {
    if !c.status.Connecting? then Deliver(c, matched)
    else
      var back := Restore(ComeUp(Welcome(c)), requests);
      if resubscribeThrows then back else ServeQueue(back, matched, failing)
  }

  function Serve(l: Ledger, matched: set<nat>, lost: set<nat>): Ledger {
    CancelEach(SettleWaiters(FlushQueue(l, lost), matched, true), Failed(l.queue, lost))
  }

  // ----- The machine -----

  /** Transport callbacks need attached handlers, and a timer fires only while it is armed. */
  predicate Enabled(c: Client, e: Event) {
    match e
    case TransportOpened(_) => c.attached
    case TransportClosed => c.attached
    case TransportFailed(_) => c.attached
    case GenericErrorTimerFired => c.genericErrorTimer
    case ConnectTimerFired => c.connectTimer
    case ReconnectTimerFired(_) => c.reconnectTimer.Some?
    case HeartbeatTimerFired(_) => c.heartbeatTimer
    case RequestTimerFired(timer) => timer in c.ledger.timers
    case _ => true
  }

  function Step(cfg: Config, c: Client, e: Event): Client {
    match e
    case ConnectCall(attempt) => Connect(cfg, c, attempt)
    case EnsureConnectedCall(attempt) => EnsureConnected(cfg, c, attempt)
    case CloseCall => Close(c)
    case SetReconnectEnabled(on) => EnableReconnect(c, on)
    case RequestCall(requestId, timed, sendThrows) => SendRequest(c, requestId, timed, sendThrows)
    case DictationCall(waits, sendThrows) => CallDictation(c, waits, sendThrows)
    case CancelCall(id) => Settle(c, {id}, false)
    case LatencyCall(sendThrows) => SendPing(cfg, c, false, sendThrows)
    case TransportOpened(helloSent) => OnOpen(cfg, c, helloSent)
    case TransportClosed => OnClose(cfg, c)
    case TransportFailed(generic) => OnError(cfg, c, generic)
    case GenericErrorTimerFired => OnGenericErrorTimer(cfg, c)
    case ConnectTimerFired => OnConnectTimer(cfg, c)
    case ReconnectTimerFired(attempt) => OnReconnectTimer(cfg, c, attempt)
    case HeartbeatTimerFired(sendThrows) => OnHeartbeatTimer(cfg, c, sendThrows)
    case HeartbeatDone => OnHeartbeatDone(c)
    case RequestTimerFired(timer) => RequestTimedOut(cfg, c, timer)
    case MalformedMessage(answers) => OnMalformed(c, answers)
    case Pong => OnPong(c)
    case ServerInfo(matched, restored, throws, failing) => HandleServerInfo(c, matched, restored, throws, failing)
    case SessionMessage(matched) => Deliver(c, matched)
    case BinaryFrame(matched) => Deliver(c, matched)
  }

  /** The client after a run of events. */
  function After(cfg: Config, c: Client, es: seq<Event>): Client
    decreases es
  {
    if es == [] then c
    else Step(cfg, After(cfg, c, es[..|es| - 1]), es[|es| - 1])
  }

  /** Every event of the run could happen when it did. */
  predicate Possible(cfg: Config, c: Client, es: seq<Event>)
    decreases es
  {
    es == [] ||
    (Possible(cfg, c, es[..|es| - 1]) && Enabled(After(cfg, c, es[..|es| - 1]), es[|es| - 1]))
  }
}
