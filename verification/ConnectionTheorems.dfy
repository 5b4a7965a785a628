/** What every step of the connection life cycle keeps, and what holds in every run. */
module ConnectionTheorems {
  import opened Options
  import opened RequestLedger
  import opened Connection

  // ----- What is kept -----

  /** How the fields of the connection hang together. */
  predicate Link(c: Client) {
    && (c.status.Connecting? || c.status.Connected? || c.attached ==> c.hasTransport)
    && (!c.status.Disposed? ==> c.shouldReconnect)
    && (c.status.Disposed? ==> !c.attached && !c.connectTimer && !c.genericErrorTimer && c.reconnectTimer.None?)
    && c.livenessFailures < LIVENESS_FAILURE_RECONNECT_THRESHOLD
  }

  /** The n-th reconnect timer armed since the client last connected has the n-th delay. */
  predicate Backoff(cfg: Config, c: Client) {
    && c.reconnectAttempt == |c.armings|
    && forall n | 0 <= n < |c.armings| :: c.armings[n] == Delay(cfg, n)
  }

  predicate TimerOnlyWhenDisconnected(c: Client) {
    c.reconnectTimer.Some? ==> c.status.Disconnected?
  }

  predicate ArmedWhenDisconnected(c: Client) {
    c.status.Disconnected? && c.reconnectEnabled ==> c.reconnectTimer.Some?
  }

  predicate QueueOnlyWhileConnecting(c: Client) {
    c.ledger.queue != [] ==> c.status.Connecting?
  }

  predicate IsDown(c: Client) {
    c.status.Disconnected? || c.status.Disposed?
  }

  predicate NothingHeldWhenDown(c: Client) {
    IsDown(c) ==> c.ledger.waiters == [] && c.ledger.queue == [] && c.ledger.probe.None?
  }

  predicate KeepsLink(cfg: Config, c: Client, d: Client) {
    && Link(d)
    && (c.status.Disposed? ==> d.status.Disposed?)
    && (Backoff(cfg, c) ==> Backoff(cfg, d))
  }

  predicate KeepsTimer(c: Client, d: Client) {
    TimerOnlyWhenDisconnected(c) ==> TimerOnlyWhenDisconnected(d)
  }

  predicate KeepsArmed(c: Client, d: Client) {
    && d.reconnectEnabled == c.reconnectEnabled
    && (ArmedWhenDisconnected(c) ==> ArmedWhenDisconnected(d))
  }

  predicate KeepsQueue(c: Client, d: Client) {
    QueueOnlyWhileConnecting(c) ==>
      QueueOnlyWhileConnecting(d) && KeepsOrder(c.ledger, d.ledger)
  }

  predicate KeepsNothing(c: Client, d: Client) {
    NothingHeldWhenDown(c) ==> NothingHeldWhenDown(d)
  }

  ghost predicate KeepsBooks(c: Client, d: Client) {
    Balanced(c.ledger) ==> Balanced(d.ledger)
  }

  ghost predicate KeepsAll(cfg: Config, c: Client, d: Client) {
    && KeepsLink(cfg, c, d) && KeepsTimer(c, d) && KeepsArmed(c, d)
    && KeepsQueue(c, d) && KeepsNothing(c, d) && KeepsBooks(c, d)
  }

  // ----- Losing the connection -----

  lemma RejectAllFacts(l: Ledger)
    ensures var l' := RejectAll(l);
            && l'.waiters == [] && l'.queue == [] && l'.probe == None
            && l'.nextId == l.nextId && l'.restored == l.restored
    ensures Balanced(l) ==> Balanced(RejectAll(l))
    ensures KeepsOrder(l, RejectAll(l))
  {
    KeepNone(l.waiters, Ids(l.waiters));
    if Balanced(l) { RejectAllBalanced(l); }
    RejectAllKeepsOrder(l);
    hide KeepsOrder;
  }

  /** `d` is `c` with at most the transport, its timers and the status changed. */
  predicate AboutToLose(c: Client, d: Client) {
    && d.ledger == c.ledger && d.reconnectEnabled == c.reconnectEnabled
    && d.shouldReconnect == c.shouldReconnect && d.reconnectAttempt == c.reconnectAttempt && d.armings == c.armings
    && (d.status.Disposed? <==> c.status.Disposed?)
    && (d.attached ==> d.hasTransport && c.attached)
    && (d.connectTimer ==> c.connectTimer) && (d.genericErrorTimer ==> c.genericErrorTimer)
    && d.livenessFailures < LIVENESS_FAILURE_RECONNECT_THRESHOLD
  }

  lemma ScheduleKeepsLink(cfg: Config, c: Client, d: Client)
    requires Link(c) && AboutToLose(c, d)
    ensures KeepsLink(cfg, c, ScheduleReconnect(cfg, d))
  {
    hide RejectAll, Delay;
  }

  lemma ScheduleKeepsRest(cfg: Config, c: Client, d: Client)
    requires Link(c) && AboutToLose(c, d)
    ensures var r := ScheduleReconnect(cfg, d);
            KeepsTimer(c, r) && KeepsArmed(c, r) && KeepsQueue(c, r) && KeepsNothing(c, r) && KeepsBooks(c, r)
    ensures IsDown(ScheduleReconnect(cfg, d))
  {
    RejectAllFacts(c.ledger);
    hide RejectAll, Balanced, InOrder, EachInOrder, Delay;
  }

  /** Losing the connection keeps everything. */
  lemma ScheduleKeeps(cfg: Config, c: Client, d: Client)
    requires Link(c) && AboutToLose(c, d)
    ensures KeepsAll(cfg, c, ScheduleReconnect(cfg, d))
    ensures IsDown(ScheduleReconnect(cfg, d))
  {
    ScheduleKeepsLink(cfg, c, d);
    ScheduleKeepsRest(cfg, c, d);
    hide KeepsLink, KeepsTimer, KeepsArmed, KeepsQueue, KeepsNothing, KeepsBooks;
    hide ScheduleReconnect, AboutToLose, IsDown;
  }

  // ----- Connecting -----

  lemma OpenTransportKeeps(cfg: Config, c: Client)
    requires Link(c) && !c.status.Disposed? && !c.status.Connecting?
    ensures var d := OpenTransport(c);
            KeepsLink(cfg, c, d) && KeepsArmed(c, d) && KeepsQueue(c, d) && KeepsNothing(c, d) && KeepsBooks(c, d)
    ensures c.reconnectTimer.None? ==> KeepsTimer(c, OpenTransport(c))
  {
    hide Balanced, InOrder, EachInOrder, Delay;
  }

  lemma FailedAttemptKeeps(cfg: Config, c: Client, attempt: Attempt)
    requires Link(c) && !c.status.Disposed? && !c.status.Connecting? && !attempt.Succeeds?
    ensures KeepsAll(cfg, c, AttemptConnect(cfg, c, attempt)) && IsDown(AttemptConnect(cfg, c, attempt))
  {
    var bare := DisposeTransport(c);
    var d := if attempt.FactoryThrows? then bare else bare.(hasTransport := true, status := Connecting);
    ScheduleKeeps(cfg, c, d);
    hide ScheduleReconnect, Balanced, InOrder, EachInOrder, Delay;
  }

  /** Whether a connect promise is pending does not matter here. */
  lemma PendingKeepsLink(cfg: Config, c: Client, d: Client, pending: bool)
    ensures KeepsLink(cfg, c, d) ==> KeepsLink(cfg, c, d.(connectPending := pending))
  {
    hide Delay;
  }

  lemma PendingKeeps(cfg: Config, c: Client, d: Client, pending: bool)
    ensures var e := d.(connectPending := pending);
            && (KeepsLink(cfg, c, d) ==> KeepsLink(cfg, c, e)) && (KeepsTimer(c, d) ==> KeepsTimer(c, e))
            && (KeepsArmed(c, d) ==> KeepsArmed(c, e)) && (KeepsQueue(c, d) ==> KeepsQueue(c, e))
            && (KeepsNothing(c, d) ==> KeepsNothing(c, e)) && (KeepsBooks(c, d) ==> KeepsBooks(c, e))
  {
    PendingKeepsLink(cfg, c, d, pending);
    hide Balanced, InOrder, EachInOrder, KeepsLink;
  }

  lemma SameKeeps(cfg: Config, c: Client)
    requires Link(c)
    ensures KeepsAll(cfg, c, c)
  {
    hide Balanced, InOrder, EachInOrder, Delay;
  }

  lemma AttemptKeeps(cfg: Config, c: Client, attempt: Attempt)
    requires Link(c) && !c.status.Disposed?
    ensures var d := AttemptConnect(cfg, c, attempt);
            KeepsLink(cfg, c, d) && KeepsArmed(c, d) && KeepsQueue(c, d) && KeepsNothing(c, d) && KeepsBooks(c, d)
    ensures c.reconnectTimer.None? ==> KeepsTimer(c, AttemptConnect(cfg, c, attempt))
  {
    SameKeeps(cfg, c);
    if !c.status.Connecting? {
      if attempt.Succeeds? { OpenTransportKeeps(cfg, c); } else { FailedAttemptKeeps(cfg, c, attempt); }
    }
    hide KeepsLink, KeepsTimer, KeepsArmed, KeepsQueue, KeepsNothing, KeepsBooks, OpenTransport, ScheduleReconnect;
  }

  lemma ConnectCases(cfg: Config, c: Client, attempt: Attempt)
    requires Link(c)
    ensures Connect(cfg, c, attempt) ==
            if c.status.Disposed? || c.status.Connected? || c.connectPending then c
            else AttemptConnect(cfg, c, attempt).(connectPending := true)
  {
    assert !c.status.Disposed? ==> c.(shouldReconnect := true) == c;
    hide AttemptConnect;
  }

  /** `connect` keeps everything but the discipline of the reconnect timer. */
  lemma ConnectKeeps(cfg: Config, c: Client, attempt: Attempt)
    requires Link(c)
    ensures var d := Connect(cfg, c, attempt);
            KeepsLink(cfg, c, d) && KeepsArmed(c, d) && KeepsQueue(c, d) && KeepsNothing(c, d) && KeepsBooks(c, d)
    ensures c.reconnectTimer.None? ==> KeepsTimer(c, Connect(cfg, c, attempt))
  {
    ConnectCases(cfg, c, attempt);
    SameKeeps(cfg, c);
    hide KeepsLink, KeepsTimer, KeepsArmed, KeepsQueue, KeepsNothing, KeepsBooks, Connect, AttemptConnect, Link;
    if !c.status.Disposed? {
      AttemptKeeps(cfg, c, attempt);
      PendingKeeps(cfg, c, AttemptConnect(cfg, c, attempt), true);
    }
  }

  /** Calling `connect` while a reconnect timer is armed leaves that timer behind. */
  predicate LeavesStaleTimer(c: Client, e: Event) {
    e.ConnectCall? && c.status.Disconnected? && c.reconnectTimer.Some? && !c.connectPending && e.attempt.Succeeds?
  }

  lemma ConnectTimer(cfg: Config, c: Client, attempt: Attempt)
    requires Link(c) && TimerOnlyWhenDisconnected(c)
    ensures TimerOnlyWhenDisconnected(Connect(cfg, c, attempt)) <==> !LeavesStaleTimer(c, ConnectCall(attempt))
  {
    hide RejectAll, Delay;
  }

  /** Clearing the reconnect timer before an attempt that is made at once. */
  lemma AttemptWithoutTimerKeeps(cfg: Config, c: Client, attempt: Attempt)
    requires Link(c) && !c.status.Disposed? && !c.status.Connecting?
    ensures var d := AttemptConnect(cfg, c.(reconnectTimer := None), attempt);
            KeepsAll(cfg, c, d)
  {
    var clear := c.(reconnectTimer := None);
    assert KeepsTimer(c, clear) && KeepsLink(cfg, c, clear) && KeepsQueue(c, clear) && KeepsNothing(c, clear)
        && KeepsBooks(c, clear) by {
      hide Balanced, InOrder, EachInOrder, Delay;
    }
    if attempt.Succeeds? { OpenTransportKeeps(cfg, clear); } else { FailedAttemptKeeps(cfg, clear, attempt); }
    assert KeepsArmed(c, AttemptConnect(cfg, clear, attempt)) by { AttemptArms(cfg, clear, attempt); }
    hide Balanced, InOrder, EachInOrder, Delay, AttemptConnect;
  }

  lemma AttemptArms(cfg: Config, c: Client, attempt: Attempt)
    requires Link(c) && !c.status.Disposed? && !c.status.Connecting?
    ensures ArmedWhenDisconnected(AttemptConnect(cfg, c, attempt))
  {
    hide RejectAll, Delay;
  }

  lemma EnsureConnectedKeeps(cfg: Config, c: Client, attempt: Attempt)
    requires Link(c)
    ensures KeepsAll(cfg, c, EnsureConnected(cfg, c, attempt))
  {
    SameKeeps(cfg, c);
    if !c.status.Disposed? {
      assert c.(shouldReconnect := true) == c;
      if !c.status.Connected? && !c.status.Connecting? {
        var clear := c.(reconnectTimer := None);
        AttemptWithoutTimerKeeps(cfg, c, attempt);
        PendingKeeps(cfg, c, AttemptConnect(cfg, clear, attempt), true);
        assert clear.(shouldReconnect := true) == clear;
      }
      hide KeepsLink, KeepsTimer, KeepsArmed, KeepsQueue, KeepsNothing, KeepsBooks, AttemptConnect;
    }
  }

  lemma CloseKeeps(cfg: Config, c: Client)
    requires Link(c)
    ensures KeepsAll(cfg, c, Close(c)) && Close(c).status.Disposed?
  {
    RejectAllFacts(c.ledger);
    hide RejectAll, Balanced, InOrder, EachInOrder, Delay;
  }

  lemma EnableReconnectKeeps(cfg: Config, c: Client, on: bool)
    requires Link(c)
    ensures var d := EnableReconnect(c, on);
            && KeepsLink(cfg, c, d) && KeepsTimer(c, d) && KeepsQueue(c, d) && KeepsNothing(c, d) && KeepsBooks(c, d)
    ensures on == c.reconnectEnabled ==> KeepsArmed(c, EnableReconnect(c, on))
  {
    hide Balanced, InOrder, EachInOrder, Delay;
  }

  // ----- Transport callbacks and connection timers -----

  lemma OnOpenKeeps(cfg: Config, c: Client, helloSent: bool)
    requires Link(c)
    ensures KeepsAll(cfg, c, OnOpen(cfg, c, helloSent))
  {
    ScheduleKeeps(cfg, c, c.(genericErrorTimer := false));
    hide ScheduleReconnect, Balanced, InOrder, EachInOrder, Delay;
  }

  lemma OnCloseKeeps(cfg: Config, c: Client)
    requires Link(c)
    ensures KeepsAll(cfg, c, OnClose(cfg, c))
  {
    ScheduleKeeps(cfg, c, c.(connectTimer := false, genericErrorTimer := false));
    hide ScheduleReconnect, Balanced, InOrder, EachInOrder, Delay;
  }

  lemma OnErrorKeeps(cfg: Config, c: Client, generic: bool)
    requires Link(c) && c.attached
    ensures KeepsAll(cfg, c, OnError(cfg, c, generic))
  {
    ScheduleKeeps(cfg, c, c.(connectTimer := false, genericErrorTimer := false));
    hide ScheduleReconnect, Balanced, InOrder, EachInOrder, Delay;
  }

  lemma OnGenericErrorTimerKeeps(cfg: Config, c: Client)
    requires Link(c)
    ensures KeepsAll(cfg, c, OnGenericErrorTimer(cfg, c))
  {
    ScheduleKeeps(cfg, c, c.(genericErrorTimer := false));
    hide ScheduleReconnect, Balanced, InOrder, EachInOrder, Delay;
  }

  lemma OnConnectTimerKeeps(cfg: Config, c: Client)
    requires Link(c)
    ensures KeepsAll(cfg, c, OnConnectTimer(cfg, c))
  {
    ScheduleKeeps(cfg, c, DisposeTransport(c.(connectTimer := false)));
    hide ScheduleReconnect, Balanced, InOrder, EachInOrder, Delay;
  }

  lemma OnReconnectTimerKeeps(cfg: Config, c: Client, attempt: Attempt)
    requires Link(c) && c.reconnectTimer.Some?
    ensures KeepsAll(cfg, c, OnReconnectTimer(cfg, c, attempt))
  {
    if !c.status.Connecting? { AttemptWithoutTimerKeeps(cfg, c, attempt); }
    assert c.status.Connecting? ==> KeepsAll(cfg, c, c.(reconnectTimer := None)) by {
      hide Balanced, InOrder, EachInOrder, Delay;
    }
    hide KeepsAll, OpenTransport, ScheduleReconnect;
  }

  // ----- Liveness -----

  lemma FailureKeeps(cfg: Config, c: Client)
    requires Link(c)
    ensures KeepsAll(cfg, c, RecordLivenessFailure(cfg, c))
  {
    if c.livenessFailures + 1 < LIVENESS_FAILURE_RECONNECT_THRESHOLD {
      FirstFailureKeeps(cfg, c);
    } else {
      TeardownKeeps(cfg, c);
    }
    hide KeepsAll, ScheduleReconnect, DisposeTransport;
  }

  lemma TeardownKeeps(cfg: Config, c: Client)
    requires Link(c)
    ensures var torn := c.(livenessFailures := 0, teardowns := c.teardowns + 1);
            KeepsAll(cfg, c, ScheduleReconnect(cfg, DisposeTransport(torn)))
  {
    ScheduleKeeps(cfg, c, DisposeTransport(c.(livenessFailures := 0, teardowns := c.teardowns + 1)));
    hide KeepsAll, ScheduleReconnect;
  }

  lemma FirstFailureKeeps(cfg: Config, c: Client)
    requires Link(c) && c.livenessFailures + 1 < LIVENESS_FAILURE_RECONNECT_THRESHOLD
    ensures KeepsAll(cfg, c, c.(livenessFailures := c.livenessFailures + 1))
  {
    hide Balanced, InOrder, EachInOrder, Delay;
  }

  lemma KeepsTransitively(cfg: Config, c: Client, d: Client, e: Client)
    requires KeepsAll(cfg, c, d) && KeepsAll(cfg, d, e)
    ensures KeepsAll(cfg, c, e)
  {
    hide Balanced, InOrder, EachInOrder, Delay;
  }

  /** A step that only changes what is held. */
  lemma LedgerKeeps(cfg: Config, c: Client, l: Ledger)
    requires Link(c)
    requires Balanced(c.ledger) ==> Balanced(l)
    requires KeepsOrder(c.ledger, l)
    requires c.ledger.queue == [] ==> l.queue == []
    requires IsDown(c) && NothingHeldWhenDown(c) ==> l.waiters == [] && l.queue == [] && l.probe.None?
    ensures KeepsAll(cfg, c, c.(ledger := l))
  {
    hide Balanced, InOrder, EachInOrder, Delay;
  }

  lemma SettleProbeFacts(l: Ledger, ok: bool)
    ensures Balanced(l) ==> Balanced(SettleProbe(l, ok))
    ensures KeepsOrder(l, SettleProbe(l, ok))
    ensures SettleProbe(l, ok).waiters == l.waiters && SettleProbe(l, ok).queue == l.queue
    ensures SettleProbe(l, ok).probe == None
  {
    if Balanced(l) { SettleProbeBalanced(l, ok); }
    SettleProbeKeepsOrder(l, ok);
    hide Balanced, KeepsOrder;
  }

  lemma SettleProbeKeeps(cfg: Config, c: Client, ok: bool)
    requires Link(c)
    ensures KeepsAll(cfg, c, c.(ledger := SettleProbe(c.ledger, ok)))
  {
    SettleProbeFacts(c.ledger, ok);
    hide SettleProbe, Balanced, KeepsOrder, KeepsAll;
    LedgerKeeps(cfg, c, SettleProbe(c.ledger, ok));
  }

  lemma StartProbeKeeps(cfg: Config, c: Client, drives: bool)
    requires Link(c) && c.status.Connected? && c.ledger.probe.None?
    ensures KeepsAll(cfg, c, c.(ledger := StartProbe(c.ledger, drives)))
  {
    if Balanced(c.ledger) { StartProbeBalanced(c.ledger, drives); }
    StartProbeKeepsOrder(c.ledger, drives);
    hide Balanced, KeepsOrder, KeepsAll;
    LedgerKeeps(cfg, c, StartProbe(c.ledger, drives));
  }

  lemma FailedPingKeeps(cfg: Config, c: Client, drives: bool)
    requires Link(c)
    ensures var failed := c.(ledger := SettleProbe(c.ledger, false));
            KeepsAll(cfg, c, if drives then RecordLivenessFailure(cfg, failed) else failed)
  {
    var failed := c.(ledger := SettleProbe(c.ledger, false));
    SettleProbeKeeps(cfg, c, false);
    assert Link(failed);
    FailureKeeps(cfg, failed);
    hide KeepsAll, RecordLivenessFailure, SettleProbe;
    KeepsTransitively(cfg, c, failed, RecordLivenessFailure(cfg, failed));
  }

  lemma SendPingKeeps(cfg: Config, c: Client, drives: bool, sendThrows: bool)
    requires Link(c)
    ensures KeepsAll(cfg, c, SendPing(cfg, c, drives, sendThrows))
  {
    LedgerKeeps(cfg, c, c.ledger);
    assert c.(ledger := c.ledger) == c;
    if c.status.Connected? && c.hasTransport && c.ledger.probe.None? {
      var probing := c.(ledger := StartProbe(c.ledger, drives));
      StartProbeKeeps(cfg, c, drives);
      assert Link(probing);
      FailedPingKeeps(cfg, probing, drives);
      hide KeepsAll, RecordLivenessFailure, SettleProbe, StartProbe;
      KeepsTransitively(cfg, c, probing, SendPing(cfg, c, drives, true));
    }
  }

  lemma OnHeartbeatTimerKeeps(cfg: Config, c: Client, sendThrows: bool)
    requires Link(c)
    ensures KeepsAll(cfg, c, OnHeartbeatTimer(cfg, c, sendThrows))
  {
    var fired := c.(heartbeatTimer := false);
    assert KeepsAll(cfg, c, fired);
    SendPingKeeps(cfg, fired, true, sendThrows);
    hide KeepsAll, SendPing;
    KeepsTransitively(cfg, c, fired, SendPing(cfg, fired, true, sendThrows));
  }

  lemma OnHeartbeatDoneKeeps(cfg: Config, c: Client)
    requires Link(c)
    ensures KeepsAll(cfg, c, OnHeartbeatDone(c))
  {
    hide Balanced, InOrder, EachInOrder, Delay;
  }

  lemma OnPongKeeps(cfg: Config, c: Client)
    requires Link(c)
    ensures KeepsAll(cfg, c, OnPong(c))
  {
    var calm := c.(livenessFailures := 0);
    assert KeepsAll(cfg, c, calm) by { hide Balanced, InOrder, EachInOrder, Delay; }
    SettleProbeKeeps(cfg, calm, true);
    hide KeepsAll, SettleProbe;
    KeepsTransitively(cfg, c, calm, calm.(ledger := SettleProbe(calm.ledger, true)));
  }

  // ----- Requests -----

  lemma SettleKeeps(cfg: Config, c: Client, sel: set<nat>, ok: bool)
    requires Link(c)
    ensures KeepsAll(cfg, c, Settle(c, sel, ok))
  {
    if Balanced(c.ledger) { SettleWaitersBalanced(c.ledger, sel, ok); }
    SettleWaitersKeepsOrder(c.ledger, sel, ok);
    if c.ledger.waiters == [] { KeepNone(c.ledger.waiters, sel); }
    hide Balanced, KeepsOrder, KeepsAll;
    LedgerKeeps(cfg, c, SettleWaiters(c.ledger, sel, ok));
  }

  lemma SendRequestKeeps(cfg: Config, c: Client, requestId: string, timed: bool, sendThrows: bool)
    requires Link(c) && Balanced(c.ledger)
    ensures KeepsAll(cfg, c, SendRequest(c, requestId, timed, sendThrows))
  {
    var path := SendPath(c, sendThrows);
    var l := Request(c.ledger, requestId, timed, path);
    RequestBalanced(c.ledger, requestId, timed, path);
    if QueueOnlyWhileConnecting(c) { RequestKeepsOrder(c.ledger, requestId, timed, path); }
    if path == Refused || path == Direct(false) { UnsentRequestLeavesNothing(c.ledger, requestId, timed, path); }
    RequestShape(c.ledger, requestId, timed, path);
    hide Request, Balanced, KeepsOrder, KeepsAll;
    if path.Queued? {
      QueueingKeeps(cfg, c, l);
    } else {
      LedgerKeepsInOrder(cfg, c, l);
    }
  }

  lemma QueueingKeeps(cfg: Config, c: Client, l: Ledger)
    requires Link(c) && c.status.Connecting?
    requires Balanced(c.ledger) ==> Balanced(l)
    requires KeepsOrder(c.ledger, l)
    ensures KeepsAll(cfg, c, c.(ledger := l))
  {
    hide Balanced, InOrder, EachInOrder, Delay;
  }

  lemma LedgerKeepsInOrder(cfg: Config, c: Client, l: Ledger)
    requires Link(c)
    requires Balanced(c.ledger) ==> Balanced(l)
    requires QueueOnlyWhileConnecting(c) ==> KeepsOrder(c.ledger, l)
    requires l.queue == c.ledger.queue && l.probe == c.ledger.probe
    requires IsDown(c) ==> l.waiters == c.ledger.waiters
    ensures KeepsAll(cfg, c, c.(ledger := l))
  {
    hide Balanced, InOrder, EachInOrder, Delay;
  }

  lemma RequestShape(l: Ledger, requestId: string, timed: bool, path: Path)
    ensures !path.Queued? ==> Request(l, requestId, timed, path).queue == l.queue
    ensures Request(l, requestId, timed, path).probe == l.probe
  {
  }

  /** A dictation call keeps everything: one made while the client is down leaves nothing behind. */
  lemma CallDictationKeeps(cfg: Config, c: Client, waits: seq<bool>, sendThrows: bool)
    requires Link(c)
    ensures KeepsAll(cfg, c, CallDictation(c, waits, sendThrows))
  {
    var sent := c.hasTransport && c.status.Connected? && !sendThrows;
    DictateBalanced(c.ledger, waits, sent);
    DictateKeepsOrder(c.ledger, waits, sent);
    hide Balanced, KeepsOrder, Dictate, KeepsAll;
    LedgerKeeps(cfg, c, Dictate(c.ledger, waits, sent));
  }

  lemma OnMalformedKeeps(cfg: Config, c: Client, answers: Option<string>)
    requires Link(c)
    ensures KeepsAll(cfg, c, OnMalformed(c, answers))
  {
    if answers.Some? { SettleKeeps(cfg, c, Tagged(c.ledger.waiters, answers.value), false); }
    hide Balanced, InOrder, EachInOrder, Delay, Settle;
  }

  lemma TimeOutSendKeeps(cfg: Config, c: Client, id: nat)
    requires Link(c) && SendTimer(id) in c.ledger.timers
    ensures KeepsAll(cfg, c, c.(ledger := TimeOutSend(c.ledger, id)))
  {
    if Balanced(c.ledger) { TimeOutSendBalanced(c.ledger, id); }
    TimeOutSendKeepsOrder(c.ledger, id);
    hide Balanced, KeepsOrder, KeepsAll;
    LedgerKeeps(cfg, c, TimeOutSend(c.ledger, id));
  }

  lemma RequestTimedOutKeeps(cfg: Config, c: Client, timer: Timer)
    requires Link(c) && timer in c.ledger.timers
    ensures KeepsAll(cfg, c, RequestTimedOut(cfg, c, timer))
  {
    SameKeeps(cfg, c);
    match timer
    case WaiterTimer(id) => SettleKeeps(cfg, c, {id}, false);
    case SendTimer(id) =>
      var cut := c.(ledger := TimeOutSend(c.ledger, id));
      TimeOutSendKeeps(cfg, c, id);
      SettleKeeps(cfg, cut, {id}, false);
      hide KeepsAll, TimeOutSend, SettleWaiters;
      KeepsTransitively(cfg, c, cut, Settle(cut, {id}, false));
    case ProbeTimer(id) =>
      if c.ledger.probe.Some? { FailedPingKeeps(cfg, c, c.ledger.probe.value.drivesLivenessFailure); }
      hide KeepsAll, RecordLivenessFailure, SettleProbe;
  }

  // ----- Messages -----

  lemma DeliverKeeps(cfg: Config, c: Client, matched: set<nat>)
    requires Link(c)
    ensures KeepsAll(cfg, c, Deliver(c, matched))
  {
    SettleKeeps(cfg, c, matched, true);
    hide Balanced, InOrder, EachInOrder, Delay, SettleWaiters;
  }

  lemma ServeFacts(l: Ledger, matched: set<nat>, lost: set<nat>)
    ensures var l' := Serve(l, matched, lost);
            && l'.queue == [] && l'.nextId == l.nextId && l'.probe == l.probe
            && (Balanced(l) ==> Balanced(l')) && KeepsOrder(l, l') && KeepsOrder(FlushQueue(l, lost), l')
  {
    var flushed := FlushQueue(l, lost);
    var resolved := SettleWaiters(flushed, matched, true);
    if Balanced(l) {
      FlushQueueBalanced(l, lost);
      SettleWaitersBalanced(flushed, matched, true);
    }
    FlushKeepsLedgerOrder(l, lost);
    SettleWaitersKeepsOrder(flushed, matched, true);
    CancelEachKeeps(resolved, Failed(l.queue, lost));
    hide Balanced, KeepsOrder, CancelEach, Failed, Settlements, TimersOf, Keep, Flushed;
    OrderKeptTwice(flushed, resolved, Serve(l, matched, lost));
    OrderKeptTwice(l, flushed, Serve(l, matched, lost));
  }

  /** The ledger after server info that connects. */
  lemma ServerInfoLedgerIs(c: Client, matched: set<nat>, restored: seq<Resubscription>, throws: bool, failing: set<nat>)
    requires c.status.Connecting?
    ensures var l := ResubscribeEach(c.ledger, restored, c.hasTransport);
            HandleServerInfo(c, matched, restored, throws, failing).ledger
            == if throws then l else Serve(l, matched, Lost(c, failing))
  {
    ResubscribeWire(c.ledger, restored, c.hasTransport);
    hide ResubscribeEach, Serve, WireIds, Sent;
  }

  /** Server info keeps the books, and an empty queue unless an error while resubscribing leaves it. */
  lemma ServerInfoLedger(c: Client, matched: set<nat>, restored: seq<Resubscription>, throws: bool, failing: set<nat>)
    requires c.status.Connecting?
    ensures var l := HandleServerInfo(c, matched, restored, throws, failing).ledger;
            && l.queue == (if throws then c.ledger.queue else [])
            && (Balanced(c.ledger) ==> Balanced(l))
            && (EachInOrder(c.ledger) ==> EachInOrder(l))
  {
    var back := ResubscribeEach(c.ledger, restored, c.hasTransport);
    ServerInfoLedgerIs(c, matched, restored, throws, failing);
    if Balanced(c.ledger) { ResubscribeEachBalanced(c.ledger, restored, c.hasTransport); }
    if EachInOrder(c.ledger) { ResubscribeEachInOrder(c.ledger, restored, c.hasTransport); }
    ResubscribeWire(c.ledger, restored, c.hasTransport);
    ServeFacts(back, matched, Lost(c, failing));
    hide Balanced, InOrder, EachInOrder, ResubscribeEach, Serve, WireIds, Sent, HandleServerInfo;
  }

  lemma ServerInfoKeeps(cfg: Config, c: Client, matched: set<nat>, restored: seq<Resubscription>, throws: bool,
                        failing: set<nat>)
    requires Link(c)
    ensures var d := HandleServerInfo(c, matched, restored, throws, failing);
            && KeepsLink(cfg, c, d) && KeepsTimer(c, d) && KeepsArmed(c, d) && KeepsNothing(c, d) && KeepsBooks(c, d)
            && (QueueOnlyWhileConnecting(c) ==>
                  (QueueOnlyWhileConnecting(d) <==> !(throws && c.status.Connecting? && c.ledger.queue != [])))
            && (EachInOrder(c.ledger) ==> EachInOrder(d.ledger))
  {
    if !c.status.Connecting? {
      SettleWaitersKeepsOrder(c.ledger, matched, true);
      DeliverKeeps(cfg, c, matched);
    } else {
      ServerInfoLedger(c, matched, restored, throws, failing);
    }
    hide Balanced, InOrder, EachInOrder, Delay, ResubscribeEach, Serve, SettleWaiters, Lost;
  }

  /** A resubscription goes out while a queued message is still to follow, at once or for ever after. */
  predicate Overtakes(c: Client, e: Event) {
    && e.ServerInfo? && c.status.Connecting? && AnySent(e.restored, c.hasTransport)
    && if e.resubscribeThrows then c.ledger.queue != []
       else exists id | id in c.ledger.queue :: id !in Lost(c, e.failing)
  }

  lemma ServerInfoOrderIff(c: Client, e: Event)
    requires e.ServerInfo? && InOrder(c.ledger)
    ensures InOrder(HandleServerInfo(c, e.matched, e.restored, e.resubscribeThrows, e.failing).ledger)
            <==> !Overtakes(c, e)
  {
    if !c.status.Connecting? {
      SettleWaitersKeepsOrder(c.ledger, e.matched, true);
    } else {
      var lost := Lost(c, e.failing);
      var back := ResubscribeEach(c.ledger, e.restored, c.hasTransport);
      var flushed := FlushQueue(back, lost);
      ServerInfoLedgerIs(c, e.matched, e.restored, e.resubscribeThrows, e.failing);
      LeftInOrderIff(c.ledger, e.restored, c.hasTransport);
      FlushedInOrderIff(c.ledger, e.restored, c.hasTransport, lost);
      ServedInOrderIff(back, e.matched, lost);
    }
    hide InOrder, EachInOrder, ResubscribeEach, Serve, SettleWaiters, Lost, FlushQueue, AnySent, Restore, ServeQueue;
  }

  /** Nothing after the flush puts a request on the wire. */
  lemma ServedWire(l: Ledger, matched: set<nat>, lost: set<nat>)
    ensures var (flushed, served) := (FlushQueue(l, lost), Serve(l, matched, lost));
            && WireIds(served.log) == WireIds(flushed.log) && served.queue == flushed.queue
            && served.nextId == flushed.nextId && served.restored == flushed.restored
  {
    var flushed := FlushQueue(l, lost);
    var resolved := SettleWaiters(flushed, matched, true);
    SettlementsOffWire(flushed.waiters, matched, true);
    WireIdsConcat(flushed.log, Settlements(flushed.waiters, matched, true));
    assert WireIds(flushed.log) + [] == WireIds(flushed.log);
    CancelEachOffWire(resolved, Failed(l.queue, lost));
    hide WireIds, Settlements, CancelEach, Failed, Flushed, Keep, TimersOf;
  }

  lemma ServedInOrderIff(l: Ledger, matched: set<nat>, lost: set<nat>)
    ensures InOrder(Serve(l, matched, lost)) <==> InOrder(FlushQueue(l, lost))
  {
    ServedWire(l, matched, lost);
    hide WireIds, Ordered, Serve, FlushQueue;
  }

  lemma {:induction false} CancelEachOffWire(l: Ledger, ids: seq<nat>)
    ensures var l' := CancelEach(l, ids);
            && WireIds(l'.log) == WireIds(l.log) && l'.queue == l.queue
            && l'.nextId == l.nextId && l'.restored == l.restored
    decreases ids
  {
    if ids != [] {
      var n := |ids| - 1;
      var before := CancelEach(l, ids[..n]);
      CancelEachOffWire(l, ids[..n]);
      SettlementsOffWire(before.waiters, {ids[n]}, false);
      WireIdsConcat(before.log, Settlements(before.waiters, {ids[n]}, false));
      assert WireIds(before.log) + [] == WireIds(before.log);
      hide WireIds, Settlements, Keep, TimersOf;
    }
  }

  // ----- Every step -----

  /** The steps after which a direct statement needs an exception. */
  predicate LeavesQueueBehind(c: Client, e: Event) {
    e.ServerInfo? && e.resubscribeThrows && c.status.Connecting? && c.ledger.queue != []
  }

  predicate TogglesReconnect(c: Client, e: Event) {
    e.SetReconnectEnabled? && e.on != c.reconnectEnabled
  }

  /** One step: the connection's fields stay consistent, a disposed client stays disposed, the
      books stay balanced, and each of the other properties is kept, but for the one kind of
      event that breaks it. */
  lemma StepKeeps(cfg: Config, c: Client, e: Event)
    requires Link(c) && Balanced(c.ledger) && Enabled(c, e)
    ensures var d := Step(cfg, c, e);
            && KeepsLink(cfg, c, d) && KeepsBooks(c, d)
            && (!e.ConnectCall? ==> KeepsTimer(c, d))
            && (!TogglesReconnect(c, e) ==> KeepsArmed(c, d))
            && (!e.ServerInfo? ==> KeepsQueue(c, d))
            && KeepsNothing(c, d)
  {
    hide KeepsLink, KeepsTimer, KeepsArmed, KeepsQueue, KeepsNothing, KeepsBooks,
      Connect, EnsureConnected, Close, EnableReconnect, SendRequest, CallDictation, Settle, SendPing, OnOpen, OnClose,
      OnError, OnGenericErrorTimer, OnConnectTimer, OnReconnectTimer, OnHeartbeatTimer, OnHeartbeatDone,
      RequestTimedOut, OnMalformed, OnPong, HandleServerInfo, Deliver, Balanced;
    match e
    case ConnectCall(attempt) => ConnectKeeps(cfg, c, attempt);
    case EnsureConnectedCall(attempt) => EnsureConnectedKeeps(cfg, c, attempt);
    case CloseCall => CloseKeeps(cfg, c);
    case SetReconnectEnabled(on) => EnableReconnectKeeps(cfg, c, on);
    case RequestCall(requestId, timed, sendThrows) => SendRequestKeeps(cfg, c, requestId, timed, sendThrows);
    case DictationCall(waits, sendThrows) => CallDictationKeeps(cfg, c, waits, sendThrows);
    case CancelCall(id) => SettleKeeps(cfg, c, {id}, false);
    case LatencyCall(sendThrows) => SendPingKeeps(cfg, c, false, sendThrows);
    case TransportOpened(helloSent) => OnOpenKeeps(cfg, c, helloSent);
    case TransportClosed => OnCloseKeeps(cfg, c);
    case TransportFailed(generic) => OnErrorKeeps(cfg, c, generic);
    case GenericErrorTimerFired => OnGenericErrorTimerKeeps(cfg, c);
    case ConnectTimerFired => OnConnectTimerKeeps(cfg, c);
    case ReconnectTimerFired(attempt) => OnReconnectTimerKeeps(cfg, c, attempt);
    case HeartbeatTimerFired(sendThrows) => OnHeartbeatTimerKeeps(cfg, c, sendThrows);
    case HeartbeatDone => OnHeartbeatDoneKeeps(cfg, c);
    case RequestTimerFired(timer) => RequestTimedOutKeeps(cfg, c, timer);
    case MalformedMessage(answers) => OnMalformedKeeps(cfg, c, answers);
    case Pong => OnPongKeeps(cfg, c);
    case ServerInfo(matched, restored, throws, failing) => ServerInfoKeeps(cfg, c, matched, restored, throws, failing);
    case SessionMessage(matched) => DeliverKeeps(cfg, c, matched);
    case BinaryFrame(matched) => DeliverKeeps(cfg, c, matched);
  }

  /** A reconnect timer is only ever armed while disconnected: a step keeps this exactly unless it
      is a `connect` call that leaves an armed timer behind. */
  lemma TimerDisciplineIff(cfg: Config, c: Client, e: Event)
    requires Link(c) && Balanced(c.ledger) && Enabled(c, e) && TimerOnlyWhenDisconnected(c)
    ensures TimerOnlyWhenDisconnected(Step(cfg, c, e)) <==> !LeavesStaleTimer(c, e)
  {
    if e.ConnectCall? {
      ConnectTimer(cfg, c, e.attempt);
    } else {
      StepKeeps(cfg, c, e);
    }
  }

  /** Sends are queued only while connecting: a step keeps this exactly unless an error while
      resubscribing leaves a non-empty queue behind in the connected state. */
  lemma QueueDisciplineIff(cfg: Config, c: Client, e: Event)
    requires Link(c) && Balanced(c.ledger) && Enabled(c, e) && QueueOnlyWhileConnecting(c)
    ensures QueueOnlyWhileConnecting(Step(cfg, c, e)) <==> !LeavesQueueBehind(c, e)
  {
    if e.ServerInfo? {
      ServerInfoKeeps(cfg, c, e.matched, e.restored, e.resubscribeThrows, e.failing);
      hide HandleServerInfo;
    } else {
      StepKeeps(cfg, c, e);
      hide Step;
    }
  }

  /** Requests go on the wire in the order in which they were made: a step keeps this exactly unless
      a resubscription overtakes the queue. */
  lemma OrderIff(cfg: Config, c: Client, e: Event)
    requires Link(c) && Balanced(c.ledger) && Enabled(c, e) && QueueOnlyWhileConnecting(c) && InOrder(c.ledger)
    ensures InOrder(Step(cfg, c, e).ledger) <==> !Overtakes(c, e)
  {
    if e.ServerInfo? {
      ServerInfoOrderIff(c, e);
      hide HandleServerInfo, InOrder;
    } else {
      StepKeeps(cfg, c, e);
      hide Step, InOrder, EachInOrder;
    }
  }

  // ----- Runs -----

  /** No event of the run is one that `bad` excludes in the state it happens in. */
  predicate Avoids(cfg: Config, c: Client, es: seq<Event>, bad: (Client, Event) -> bool)
    decreases es
  {
    es == [] ||
    (Avoids(cfg, c, es[..|es| - 1], bad) && !bad(After(cfg, c, es[..|es| - 1]), es[|es| - 1]))
  }

  /** In every run: the connection's fields are consistent; each waiter, send and probe is settled at
      most once and held, with its timer, exactly until then; a send succeeds exactly if it went on
      the wire, once; the n-th reconnect delay since the last connect is the n-th backoff delay. */
  lemma {:induction false} RunKeeps(cfg: Config, enabled: bool, es: seq<Event>)
    requires Possible(cfg, NewClient(enabled), es)
    ensures var c := After(cfg, NewClient(enabled), es);
            Link(c) && Balanced(c.ledger) && Backoff(cfg, c) && NothingHeldWhenDown(c)
    decreases es
  {
    hide Step, Balanced;
    if es == [] {
      EmptyLedgerBalanced();
    } else {
      var n := |es| - 1;
      RunKeeps(cfg, enabled, es[..n]);
      StepKeeps(cfg, After(cfg, NewClient(enabled), es[..n]), es[n]);
    }
  }

  /** In every run that neither leaves a stale timer nor toggles reconnecting, a reconnect timer is
      armed exactly while the client is disconnected. */
  lemma {:induction false} RunTimers(cfg: Config, es: seq<Event>)
    requires Possible(cfg, NewClient(true), es)
    requires Avoids(cfg, NewClient(true), es, (c, e) => LeavesStaleTimer(c, e) || TogglesReconnect(c, e))
    ensures var c := After(cfg, NewClient(true), es);
            c.reconnectEnabled && (c.reconnectTimer.Some? <==> c.status.Disconnected?)
    decreases es
  {
    if es != [] {
      var n := |es| - 1;
      RunTimers(cfg, es[..n]);
      RunKeeps(cfg, true, es[..n]);
      var c := After(cfg, NewClient(true), es[..n]);
      StepKeeps(cfg, c, es[n]);
      TimerDisciplineIff(cfg, c, es[n]);
      hide Step, Balanced;
    }
  }

  lemma StepKeepsEach(cfg: Config, c: Client, e: Event)
    requires Link(c) && Balanced(c.ledger) && Enabled(c, e) && QueueOnlyWhileConnecting(c) && EachInOrder(c.ledger)
    ensures EachInOrder(Step(cfg, c, e).ledger)
  {
    if e.ServerInfo? {
      ServerInfoKeeps(cfg, c, e.matched, e.restored, e.resubscribeThrows, e.failing);
      hide HandleServerInfo, EachInOrder;
    } else {
      StepKeeps(cfg, c, e);
      hide Step, InOrder, EachInOrder;
    }
  }

  /** In every run in which no throwing resubscription leaves a queue behind, sends are queued only
      while connecting, and the requests that callers make go on the wire in the order in which they
      were made; so do the resubscriptions among themselves. */
  lemma {:induction false} RunCallersInOrder(cfg: Config, enabled: bool, es: seq<Event>)
    requires Possible(cfg, NewClient(enabled), es)
    requires Avoids(cfg, NewClient(enabled), es, LeavesQueueBehind)
    ensures var c := After(cfg, NewClient(enabled), es);
            QueueOnlyWhileConnecting(c) && EachInOrder(c.ledger)
    decreases es
  {
    if es != [] {
      var n := |es| - 1;
      var c := After(cfg, NewClient(enabled), es[..n]);
      RunCallersInOrder(cfg, enabled, es[..n]);
      RunKeeps(cfg, enabled, es[..n]);
      QueueDisciplineIff(cfg, c, es[n]);
      StepKeepsEach(cfg, c, es[n]);
      hide Step, Balanced, EachInOrder;
    }
  }

  /** If moreover no resubscription overtakes the queue, all requests go on the wire in order. */
  lemma {:induction false} RunInOrder(cfg: Config, enabled: bool, es: seq<Event>)
    requires Possible(cfg, NewClient(enabled), es)
    requires Avoids(cfg, NewClient(enabled), es, LeavesQueueBehind)
    requires Avoids(cfg, NewClient(enabled), es, Overtakes)
    ensures InOrder(After(cfg, NewClient(enabled), es).ledger)
    decreases es
  {
    if es != [] {
      var n := |es| - 1;
      RunInOrder(cfg, enabled, es[..n]);
      RunCallersInOrder(cfg, enabled, es[..n]);
      RunKeeps(cfg, enabled, es[..n]);
      OrderIff(cfg, After(cfg, NewClient(enabled), es[..n]), es[n]);
      hide Step, Balanced, InOrder, EachInOrder, Overtakes;
    }
  }

  /** In every run a client that is disconnected or disposed holds no waiter, no queued send and no
      probe, and has no timer armed for any. */
  lemma RunHoldsNothingWhenDown(cfg: Config, enabled: bool, es: seq<Event>)
    requires Possible(cfg, NewClient(enabled), es)
    requires IsDown(After(cfg, NewClient(enabled), es))
    ensures var l := After(cfg, NewClient(enabled), es).ledger;
            l.waiters == [] && l.queue == [] && l.probe.None? && l.timers == {}
  {
    var c := After(cfg, NewClient(enabled), es);
    RunKeeps(cfg, enabled, es);
    hide After, Possible, Backoff;
    forall t: Timer
      ensures t !in c.ledger.timers
    {
      assert TimersAt(c.ledger, t.id);
      assert t == WaiterTimer(t.id) || t == SendTimer(t.id) || t == ProbeTimer(t.id);
    }
  }

  /** A malformed answer to request `r` rejects the waiters tagged `r`, each once, and no other. */
  lemma MalformedRejectsTagged(cfg: Config, c: Client, r: string)
    requires Balanced(c.ledger)
    ensures var l := c.ledger;
            var l' := Step(cfg, c, MalformedMessage(Some(r))).ledger;
            && (forall w :: w in l'.waiters <==> w in l.waiters && w.requestId != Some(r))
            && (forall w | w in l.waiters ::
                  Count(l', WaiterSettled(w.id, false)) ==
                  Count(l, WaiterSettled(w.id, false)) + (if w.requestId == Some(r) then 1 else 0))
            && (forall id: nat :: Count(l', WaiterSettled(id, true)) == Count(l, WaiterSettled(id, true)))
            && l'.queue == l.queue && l'.probe == l.probe
  {
    var l := c.ledger;
    var sel := Tagged(l.waiters, r);
    var l' := SettleWaiters(l, sel, false);
    KeepMembers(l.waiters, sel);
    forall w | w in l.waiters
      ensures w.id in sel <==> w.requestId == Some(r)
    {
      OneWaiterPerId(l, w);
    }
    forall id: nat
      ensures Count(l', WaiterSettled(id, true)) == Count(l, WaiterSettled(id, true))
      ensures Count(l', WaiterSettled(id, false)) == Count(l, WaiterSettled(id, false))
                + LiveCount(l.waiters, id) - LiveCount(l'.waiters, id)
    {
      SettlementsTally(l.waiters, sel, false, id);
      CountsAfter(l, l', Settlements(l.waiters, sel, false), id);
    }
    forall w | w in l.waiters
      ensures LiveCount(l.waiters, w.id) == 1
      ensures LiveCount(l'.waiters, w.id) == if w.id in sel then 0 else 1
    {
      assert BalancedAt(l, w.id);
      LiveCountIsMembership(l.waiters, w.id);
      LiveCountIsMembership(l'.waiters, w.id);
      SettlementsTally(l.waiters, sel, false, w.id);
    }
  }

  // ----- Liveness over a run -----

  /** An inbound message or frame that the client accepts as a sign of life. */
  predicate IsAccepted(e: Event) {
    e.Pong? || e.ServerInfo? || e.SessionMessage? || e.BinaryFrame?
  }

  /** A ping goes out when the client is up and has no probe outstanding. */
  predicate StartsProbe(c: Client) {
    c.status.Connected? && c.hasTransport && c.ledger.probe.None?
  }

  /** The heartbeat starts a probe of its own; if there is one already it shares it. */
  predicate HeartbeatStarts(c: Client, e: Event) {
    e.HeartbeatTimerFired? && StartsProbe(c)
  }

  predicate LatencyStarts(c: Client, e: Event) {
    e.LatencyCall? && StartsProbe(c)
  }

  /** The event is a liveness check that fails: a probe that counts times out, or the ping of a
      heartbeat that has no probe to share cannot be sent. */
  predicate HeartbeatFails(c: Client, e: Event) {
    || (e.RequestTimerFired? && e.timer.ProbeTimer? && c.ledger.probe == Some(Probe(e.timer.id, true)))
    || (HeartbeatStarts(c, e) && e.sendThrows)
  }

  /** Heartbeat failures since the last accepted inbound message or teardown. */
  function FailuresSince(cfg: Config, c: Client, es: seq<Event>): nat
    decreases es
  {
    if es == [] then 0
    else
      var (before, e) := (es[..|es| - 1], es[|es| - 1]);
      var n := FailuresSince(cfg, c, before);
      if IsAccepted(e) then 0
      else if !HeartbeatFails(After(cfg, c, before), e) then n
      else if n + 1 == LIVENESS_FAILURE_RECONNECT_THRESHOLD then 0
      else n + 1
  }

  /** No probe is started: it stays or goes, and numbers are not used again. */
  predicate ProbeStays(c: Client, d: Client) {
    && (d.ledger.probe == c.ledger.probe || d.ledger.probe.None?)
    && d.ledger.nextId >= c.ledger.nextId
  }

  /** The probe of a ping that goes out has the next number and says who started it. */
  predicate ProbeIsNew(c: Client, d: Client, drives: bool) {
    && (d.ledger.probe == Some(Probe(c.ledger.nextId, drives)) || d.ledger.probe.None?)
    && d.ledger.nextId > c.ledger.nextId
  }

  predicate SameLiveness(c: Client, d: Client) {
    d.livenessFailures == c.livenessFailures && d.teardowns == c.teardowns && ProbeStays(c, d)
  }

  lemma DisposeLiveness(c: Client)
    ensures SameLiveness(c, DisposeTransport(c)) && DisposeTransport(c).ledger == c.ledger
  {
  }

  lemma ScheduleLiveness(cfg: Config, c: Client)
    ensures SameLiveness(c, ScheduleReconnect(cfg, c)) && IsDown(ScheduleReconnect(cfg, c))
  {
    RejectAllFacts(c.ledger);
    hide RejectAll, Delay, Balanced, KeepsOrder;
  }

  lemma OpenLiveness(c: Client)
    ensures SameLiveness(c, OpenTransport(c))
  {
  }

  lemma DroppedLiveness(cfg: Config, c: Client, d: Client)
    requires SameLiveness(c, d)
    ensures SameLiveness(c, ScheduleReconnect(cfg, d).(connectPending := false))
  {
    ScheduleLiveness(cfg, d);
    hide ScheduleReconnect, IsDown;
  }

  lemma AttemptLiveness(cfg: Config, c: Client, attempt: Attempt)
    ensures SameLiveness(c, AttemptConnect(cfg, c, attempt))
  {
    var bare := DisposeTransport(c);
    DisposeLiveness(c);
    OpenLiveness(c);
    DroppedLiveness(cfg, c, bare);
    DroppedLiveness(cfg, c, bare.(hasTransport := true, status := Connecting));
    assert SameLiveness(c, c) && SameLiveness(c, c.(connectPending := false));
    hide ScheduleReconnect, DisposeTransport, OpenTransport, SameLiveness;
  }

  lemma ConnectLiveness(cfg: Config, c: Client, attempt: Attempt)
    ensures SameLiveness(c, Connect(cfg, c, attempt))
  {
    AttemptLiveness(cfg, c.(shouldReconnect := true), attempt);
    hide AttemptConnect;
  }

  lemma EnsureConnectedLiveness(cfg: Config, c: Client, attempt: Attempt)
    ensures SameLiveness(c, EnsureConnected(cfg, c, attempt))
  {
    var idle := c.(shouldReconnect := true, reconnectTimer := None);
    AttemptLiveness(cfg, idle, attempt);
    ConnectLiveness(cfg, idle, attempt);
    hide AttemptConnect, Connect;
  }

  lemma CloseLiveness(cfg: Config, c: Client)
    ensures SameLiveness(c, Close(c))
  {
    RejectAllFacts(c.ledger);
    hide RejectAll, Balanced, KeepsOrder;
  }

  lemma OnOpenLiveness(cfg: Config, c: Client, helloSent: bool)
    ensures SameLiveness(c, OnOpen(cfg, c, helloSent))
  {
    ScheduleLiveness(cfg, c.(genericErrorTimer := false));
    hide ScheduleReconnect;
  }

  lemma OnCloseLiveness(cfg: Config, c: Client)
    ensures SameLiveness(c, OnClose(cfg, c))
  {
    ScheduleLiveness(cfg, c.(connectTimer := false, genericErrorTimer := false));
    hide ScheduleReconnect;
  }

  lemma OnErrorLiveness(cfg: Config, c: Client, generic: bool)
    ensures SameLiveness(c, OnError(cfg, c, generic))
  {
    ScheduleLiveness(cfg, c.(connectTimer := false, genericErrorTimer := false));
    hide ScheduleReconnect;
  }

  lemma OnGenericErrorTimerLiveness(cfg: Config, c: Client)
    ensures SameLiveness(c, OnGenericErrorTimer(cfg, c))
  {
    ScheduleLiveness(cfg, c.(genericErrorTimer := false));
    hide ScheduleReconnect;
  }

  lemma OnConnectTimerLiveness(cfg: Config, c: Client)
    ensures SameLiveness(c, OnConnectTimer(cfg, c))
  {
    ScheduleLiveness(cfg, DisposeTransport(c.(connectTimer := false)));
    hide ScheduleReconnect;
  }

  lemma OnReconnectTimerLiveness(cfg: Config, c: Client, attempt: Attempt)
    ensures SameLiveness(c, OnReconnectTimer(cfg, c, attempt))
  {
    AttemptLiveness(cfg, c.(reconnectTimer := None), attempt);
    hide AttemptConnect;
  }

  /** A liveness failure counts one up, or tears the connection down at the threshold. */
  predicate CountsFailure(c: Client, d: Client) {
    if c.livenessFailures + 1 == LIVENESS_FAILURE_RECONNECT_THRESHOLD
    then d.livenessFailures == 0 && d.teardowns == c.teardowns + 1 && IsDown(d)
    else d.livenessFailures == c.livenessFailures + 1 && d.teardowns == c.teardowns
  }

  lemma TeardownLiveness(cfg: Config, c: Client)
    ensures var d := ScheduleReconnect(cfg, DisposeTransport(c.(livenessFailures := 0, teardowns := c.teardowns + 1)));
            d.livenessFailures == 0 && d.teardowns == c.teardowns + 1 && IsDown(d) && ProbeStays(c, d)
  {
    var calm := c.(livenessFailures := 0, teardowns := c.teardowns + 1);
    DisposeLiveness(calm);
    ScheduleLiveness(cfg, DisposeTransport(calm));
    hide ScheduleReconnect, DisposeTransport, IsDown;
  }

  lemma FirstFailureCounts(c: Client)
    requires c.livenessFailures == 0
    ensures CountsFailure(c, c.(livenessFailures := 1)) && ProbeStays(c, c.(livenessFailures := 1))
  {
  }

  lemma RecordLiveness(cfg: Config, c: Client)
    requires c.livenessFailures < LIVENESS_FAILURE_RECONNECT_THRESHOLD
    ensures CountsFailure(c, RecordLivenessFailure(cfg, c)) && ProbeStays(c, RecordLivenessFailure(cfg, c))
  {
    RecordCases(cfg, c);
    hide ScheduleReconnect, DisposeTransport, IsDown, RecordLivenessFailure, ProbeStays;
    if c.livenessFailures == 0 {
      FirstFailureCounts(c);
    } else {
      TeardownLiveness(cfg, c);
    }
  }

  /** A failed ping has no probe left, and counts if a heartbeat started it. */
  lemma FailedPingLiveness(cfg: Config, c: Client, l: Ledger, drives: bool)
    requires Link(c) && l.probe.None? && l.nextId >= c.ledger.nextId
    ensures var failed := c.(ledger := l);
            var d := if drives then RecordLivenessFailure(cfg, failed) else failed;
            && (if drives then CountsFailure(c, d)
                else d.livenessFailures == c.livenessFailures && d.teardowns == c.teardowns)
            && d.ledger.probe.None? && d.ledger.nextId >= l.nextId
  {
    RecordLiveness(cfg, c.(ledger := l));
    hide RecordLivenessFailure;
  }

  lemma ProbeGone(l: Ledger, drives: bool)
    ensures SettleProbe(l, false).probe.None? && SettleProbe(l, false).nextId == l.nextId
    ensures StartProbe(l, drives).probe == Some(Probe(l.nextId, drives)) && StartProbe(l, drives).nextId == l.nextId + 1
  {
  }

  lemma SendPingLiveness(cfg: Config, c: Client, drives: bool, sendThrows: bool)
    requires Link(c)
    ensures var d := SendPing(cfg, c, drives, sendThrows);
            && (if drives && sendThrows && StartsProbe(c) then CountsFailure(c, d)
                else d.livenessFailures == c.livenessFailures && d.teardowns == c.teardowns)
            && (if StartsProbe(c) then ProbeIsNew(c, d, drives) else ProbeStays(c, d))
  {
    var probing := StartProbe(c.ledger, drives);
    ProbeGone(c.ledger, drives);
    ProbeGone(probing, drives);
    FailedPingLiveness(cfg, c, SettleProbe(probing, false), drives);
    hide RecordLivenessFailure, SettleProbe, StartProbe;
  }

  lemma ProbeTimedOutLiveness(cfg: Config, c: Client, id: nat)
    requires Link(c)
    ensures var d := ProbeTimedOut(cfg, c, id);
            && (if c.ledger.probe == Some(Probe(id, true)) then CountsFailure(c, d)
                else d.livenessFailures == c.livenessFailures && d.teardowns == c.teardowns)
            && ProbeStays(c, d)
            && (c.ledger.probe != Some(Probe(id, true)) ==>
                  d.status == c.status && d.reconnectTimer == c.reconnectTimer)
  {
    ProbeGone(c.ledger, true);
    if c.ledger.probe.Some? {
      FailedPingLiveness(cfg, c, SettleProbe(c.ledger, false), c.ledger.probe.value.drivesLivenessFailure);
    }
    hide RecordLivenessFailure, SettleProbe, CountsFailure;
  }

  lemma SendTimedOutLiveness(c: Client, id: nat)
    ensures SameLiveness(c, c.(ledger := SettleWaiters(TimeOutSend(c.ledger, id), {id}, false)))
  {
    hide Keep, Settlements, TimersOf, Splice;
  }

  lemma RequestTimedOutLiveness(cfg: Config, c: Client, timer: Timer)
    requires Link(c)
    ensures LivenessStep(c, RequestTimerFired(timer), RequestTimedOut(cfg, c, timer))
  {
    hide ProbeTimedOut, Settle, CountsFailure, ProbeStays, TimeOutSend, SettleWaiters, Link;
    match timer
    case WaiterTimer(id) => SettleLiveness(c, {id}, false, None);
    case SendTimer(id) => SendTimedOutLiveness(c, id);
    case ProbeTimer(id) => ProbeTimedOutLiveness(cfg, c, id);
  }

  predicate Calm(c: Client, d: Client) {
    d.livenessFailures == 0 && d.teardowns == c.teardowns && ProbeStays(c, d)
  }

  lemma DeliverLiveness(c: Client, matched: set<nat>)
    ensures Calm(c, Deliver(c, matched))
  {
    hide Keep, Settlements, TimersOf;
  }

  lemma ServerInfoLiveness(c: Client, matched: set<nat>, restored: seq<Resubscription>, throws: bool, failing: set<nat>)
    ensures Calm(c, HandleServerInfo(c, matched, restored, throws, failing))
  {
    DeliverLiveness(c, matched);
    var back := Restore(ComeUp(Welcome(c)), restored);
    ResubscribeWire(c.ledger, restored, c.hasTransport);
    ServeFacts(back.ledger, matched, Lost(back, failing));
    hide Deliver, ResubscribeEach, Serve, WireIds, Sent, Balanced, KeepsOrder;
  }

  lemma PongLiveness(c: Client)
    ensures Calm(c, OnPong(c))
  {
  }

  /** The events that leave the liveness fields alone at sight. */
  lemma SettleLiveness(c: Client, sel: set<nat>, ok: bool, answers: Option<string>)
    ensures SameLiveness(c, Settle(c, sel, ok)) && SameLiveness(c, OnMalformed(c, answers))
  {
    hide Keep, Settlements, TimersOf, Tagged;
  }

  lemma SwitchLiveness(c: Client, on: bool)
    ensures SameLiveness(c, EnableReconnect(c, on)) && SameLiveness(c, OnHeartbeatDone(c))
  {
  }

  lemma RequestLiveness(c: Client, requestId: string, timed: bool, sendThrows: bool)
    ensures SameLiveness(c, SendRequest(c, requestId, timed, sendThrows))
  {
    RequestWire(c.ledger, requestId, timed, SendPath(c, sendThrows));
    hide Request, WireIds, SendPath;
  }

  lemma CallDictationLiveness(c: Client, waits: seq<bool>, sendThrows: bool)
    ensures SameLiveness(c, CallDictation(c, waits, sendThrows))
  {
    DictateBalanced(c.ledger, waits, c.hasTransport && c.status.Connected? && !sendThrows);
    hide Dictate, Balanced;
  }

  /** Accepted messages reset the count, failed heartbeats raise it or tear down, nothing else touches it. */
  predicate LivenessStep(c: Client, e: Event, d: Client) {
    && (if IsAccepted(e) then d.livenessFailures == 0 && d.teardowns == c.teardowns
        else if HeartbeatFails(c, e) then CountsFailure(c, d)
        else d.livenessFailures == c.livenessFailures && d.teardowns == c.teardowns)
    && (if HeartbeatStarts(c, e) then ProbeIsNew(c, d, true)
        else if LatencyStarts(c, e) then ProbeIsNew(c, d, false)
        else ProbeStays(c, d))
  }

  /** The events that start no probe, time none out and are no sign of life. */
  predicate IsQuiet(e: Event) {
    !IsAccepted(e) && !e.HeartbeatTimerFired? && !e.LatencyCall? && !e.RequestTimerFired?
  }

  lemma QuietStep(c: Client, e: Event, d: Client)
    requires IsQuiet(e) && SameLiveness(c, d)
    ensures LivenessStep(c, e, d)
  {
  }

  lemma CalmStep(c: Client, e: Event, d: Client)
    requires IsAccepted(e) && Calm(c, d)
    ensures LivenessStep(c, e, d)
  {
  }

  lemma QuietLiveness(cfg: Config, c: Client, e: Event)
    requires Link(c) && IsQuiet(e)
    ensures LivenessStep(c, e, Step(cfg, c, e))
  {
    QuietCases(cfg, c, e);
    hide SameLiveness, LivenessStep, Step;
    QuietStep(c, e, Step(cfg, c, e));
  }

  lemma QuietCases(cfg: Config, c: Client, e: Event)
    requires Link(c) && IsQuiet(e)
    ensures SameLiveness(c, Step(cfg, c, e))
  {
    hide Link, Connect, EnsureConnected, Close, OnOpen, OnClose, OnError, OnGenericErrorTimer, OnConnectTimer,
      OnReconnectTimer, OnMalformed, SameLiveness, SendRequest, CallDictation, Settle, EnableReconnect, OnHeartbeatDone;
    match e
    case ConnectCall(attempt) => ConnectLiveness(cfg, c, attempt);
    case EnsureConnectedCall(attempt) => EnsureConnectedLiveness(cfg, c, attempt);
    case CloseCall => CloseLiveness(cfg, c);
    case TransportOpened(helloSent) => OnOpenLiveness(cfg, c, helloSent);
    case TransportClosed => OnCloseLiveness(cfg, c);
    case TransportFailed(generic) => OnErrorLiveness(cfg, c, generic);
    case GenericErrorTimerFired => OnGenericErrorTimerLiveness(cfg, c);
    case ConnectTimerFired => OnConnectTimerLiveness(cfg, c);
    case ReconnectTimerFired(attempt) => OnReconnectTimerLiveness(cfg, c, attempt);
    case MalformedMessage(answers) => SettleLiveness(c, {}, false, answers);
    case SetReconnectEnabled(on) => SwitchLiveness(c, on);
    case RequestCall(requestId, timed, sendThrows) => RequestLiveness(c, requestId, timed, sendThrows);
    case DictationCall(waits, sendThrows) => CallDictationLiveness(c, waits, sendThrows);
    case CancelCall(id) => SettleLiveness(c, {id}, false, None);
    case HeartbeatDone => SwitchLiveness(c, false);
  }

  lemma AcceptedLiveness(cfg: Config, c: Client, e: Event)
    requires IsAccepted(e)
    ensures LivenessStep(c, e, Step(cfg, c, e))
  {
    hide Calm, LivenessStep, OnPong, HandleServerInfo, Deliver;
    match e {
      case Pong => PongLiveness(c);
      case ServerInfo(matched, restored, throws, failing) => ServerInfoLiveness(c, matched, restored, throws, failing);
      case SessionMessage(matched) => DeliverLiveness(c, matched);
      case BinaryFrame(matched) => DeliverLiveness(c, matched);
    }
    CalmStep(c, e, Step(cfg, c, e));
  }

  lemma StepLiveness(cfg: Config, c: Client, e: Event)
    requires Link(c)
    ensures LivenessStep(c, e, Step(cfg, c, e))
  {
    if IsQuiet(e) {
      QuietLiveness(cfg, c, e);
    } else if IsAccepted(e) {
      AcceptedLiveness(cfg, c, e);
    } else {
      PingLiveness(cfg, c, e);
    }
    hide Step, LivenessStep;
  }

  lemma PingLiveness(cfg: Config, c: Client, e: Event)
    requires Link(c) && (e.LatencyCall? || e.HeartbeatTimerFired? || e.RequestTimerFired?)
    ensures LivenessStep(c, e, Step(cfg, c, e))
  {
    hide Link, SendPing, OnHeartbeatTimer, RequestTimedOut, CountsFailure, ProbeStays, ProbeIsNew;
    match e
    case LatencyCall(sendThrows) => SendPingLiveness(cfg, c, false, sendThrows);
    case HeartbeatTimerFired(sendThrows) => HeartbeatTimerLiveness(cfg, c, sendThrows);
    case RequestTimerFired(timer) => RequestTimedOutLiveness(cfg, c, timer);
  }

  lemma HeartbeatTimerLiveness(cfg: Config, c: Client, sendThrows: bool)
    requires Link(c)
    ensures var d := OnHeartbeatTimer(cfg, c, sendThrows);
            && (if sendThrows && StartsProbe(c) then CountsFailure(c, d)
                else d.livenessFailures == c.livenessFailures && d.teardowns == c.teardowns)
            && (if StartsProbe(c) then ProbeIsNew(c, d, true) else ProbeStays(c, d))
  {
    SendPingLiveness(cfg, c.(heartbeatTimer := false), true, sendThrows);
    hide SendPing;
  }

  /** A run of one more event. */
  lemma OneMore(cfg: Config, c: Client, es: seq<Event>, e: Event)
    ensures After(cfg, c, es + [e]) == Step(cfg, After(cfg, c, es), e)
    ensures Possible(cfg, c, es + [e]) <==> Possible(cfg, c, es) && Enabled(After(cfg, c, es), e)
  {
    assert (es + [e])[..|es|] == es;
    hide Step, Enabled;
  }

  /** What the last event of a run does to the counter and the probe. */
  lemma LastLiveness(cfg: Config, enabled: bool, es: seq<Event>)
    requires es != [] && Possible(cfg, NewClient(enabled), es)
    ensures var n := |es| - 1;
            var c := After(cfg, NewClient(enabled), es[..n]);
            && Possible(cfg, NewClient(enabled), es[..n]) && es == es[..n] + [es[n]]
            && LivenessStep(c, es[n], After(cfg, NewClient(enabled), es))
  {
    hide NewClient, Possible, After, Step, Balanced, Backoff, Link, LivenessStep, Enabled, NothingHeldWhenDown;
    var (run, last) := (es[..|es| - 1], es[|es| - 1]);
    assert es == run + [last];
    OneMore(cfg, NewClient(enabled), run, last);
    RunKeeps(cfg, enabled, run);
    StepLiveness(cfg, After(cfg, NewClient(enabled), run), last);
  }

  /** In every run the failure counter is the number of heartbeat failures since the last accepted
      inbound message or teardown; it stays below two; and the next event tears the connection down
      exactly if it is a heartbeat failure and that number is one. */
  lemma {:induction false} RunLiveness(cfg: Config, enabled: bool, es: seq<Event>, next: Event)
    requires Possible(cfg, NewClient(enabled), es + [next])
    ensures var c := After(cfg, NewClient(enabled), es);
            var n := FailuresSince(cfg, NewClient(enabled), es);
            var d := Step(cfg, c, next);
            && c.livenessFailures == n < 2
            && (if HeartbeatFails(c, next) && n == 1 then IsDown(d) && d.teardowns == c.teardowns + 1
                else d.teardowns == c.teardowns)
    decreases es
  {
    var more := es + [next];
    assert more[..|es|] == es;
    LastLiveness(cfg, enabled, more);
    OneMore(cfg, NewClient(enabled), es, next);
    if es == [] {
      assert After(cfg, NewClient(enabled), es) == NewClient(enabled);
    } else {
      var n := |es| - 1;
      LastLiveness(cfg, enabled, es);
      RunLiveness(cfg, enabled, es[..n], es[n]);
    }
    hide Step, After, Possible, ProbeStays, ProbeIsNew;
  }

  // ----- Who started the probe -----

  /** Event `k` of the run started probe `id`, from a heartbeat or from a latency call. */
  predicate StartedAt(cfg: Config, c: Client, es: seq<Event>, k: nat, id: nat, drives: bool) {
    && k < |es|
    && After(cfg, c, es[..k]).ledger.nextId == id
    && if drives then HeartbeatStarts(After(cfg, c, es[..k]), es[k]) else LatencyStarts(After(cfg, c, es[..k]), es[k])
  }

  lemma StartedBefore(cfg: Config, c: Client, es: seq<Event>, e: Event, k: nat, id: nat, drives: bool)
    requires k < |es|
    ensures StartedAt(cfg, c, es + [e], k, id, drives) <==> StartedAt(cfg, c, es, k, id, drives)
  {
    assert (es + [e])[..k] == es[..k];
  }

  /** In every run the outstanding probe was started by an event of its kind. */
  lemma {:induction false} ProbeWasStarted(cfg: Config, enabled: bool, es: seq<Event>)
    requires Possible(cfg, NewClient(enabled), es)
    ensures var c0 := NewClient(enabled);
            var p := After(cfg, c0, es).ledger.probe;
            p.Some? ==> exists k :: StartedAt(cfg, c0, es, k, p.value.id, p.value.drivesLivenessFailure)
    decreases es
  {
    if es != [] {
      var (c0, n) := (NewClient(enabled), |es| - 1);
      var (c, e) := (After(cfg, c0, es[..n]), es[n]);
      LastLiveness(cfg, enabled, es);
      hide Possible, After, CountsFailure, HeartbeatFails;
      ProbeWasStarted(cfg, enabled, es[..n]);
      var p := After(cfg, c0, es).ledger.probe;
      if p.Some? {
        if c.ledger.probe == p {
          var k :| StartedAt(cfg, c0, es[..n], k, p.value.id, p.value.drivesLivenessFailure);
          StartedBefore(cfg, c0, es[..n], e, k, p.value.id, p.value.drivesLivenessFailure);
        } else {
          assert StartedAt(cfg, c0, es, n, p.value.id, p.value.drivesLivenessFailure);
        }
      }
    }
  }

  /** Every failure that counts is a heartbeat's: its own ping could not be sent, or a probe timed out
      that an earlier heartbeat of the run started. */
  lemma CountedFailureIsHeartbeats(cfg: Config, enabled: bool, es: seq<Event>, next: Event)
    requires Possible(cfg, NewClient(enabled), es + [next])
    requires HeartbeatFails(After(cfg, NewClient(enabled), es), next)
    ensures next.HeartbeatTimerFired?
         || (&& next.RequestTimerFired? && next.timer.ProbeTimer?
             && exists k :: StartedAt(cfg, NewClient(enabled), es, k, next.timer.id, true))
  {
    assert (es + [next])[..|es|] == es;
    ProbeWasStarted(cfg, enabled, es);
    hide Possible, After, StartedAt;
  }

  /** In every run, a probe that a latency call started never counts, whichever heartbeats share it:
      while it is outstanding it is not a counting probe, and its timeout leaves counter, connection
      and reconnect timer as they are. */
  lemma LatencyNeverCounts(cfg: Config, enabled: bool, es: seq<Event>, k: nat, id: nat)
    requires Possible(cfg, NewClient(enabled), es)
    requires StartedAt(cfg, NewClient(enabled), es, k, id, false)
    ensures var c := After(cfg, NewClient(enabled), es);
            var d := Step(cfg, c, RequestTimerFired(ProbeTimer(id)));
            && c.ledger.probe != Some(Probe(id, true))
            && d.livenessFailures == c.livenessFailures && d.teardowns == c.teardowns
            && d.status == c.status && d.reconnectTimer == c.reconnectTimer
  {
    LatencyProbeStays(cfg, enabled, es, k, id);
    RunKeeps(cfg, enabled, es);
    TimeoutIgnored(cfg, After(cfg, NewClient(enabled), es), id);
    hide Possible, After, StartedAt, Step, Link, Balanced, Backoff;
  }

  lemma TimeoutIgnored(cfg: Config, c: Client, id: nat)
    requires Link(c) && c.ledger.probe != Some(Probe(id, true))
    ensures var d := Step(cfg, c, RequestTimerFired(ProbeTimer(id)));
            && d.livenessFailures == c.livenessFailures && d.teardowns == c.teardowns
            && d.status == c.status && d.reconnectTimer == c.reconnectTimer
  {
    ProbeTimedOutLiveness(cfg, c, id);
    hide ProbeTimedOut, ProbeStays, Link;
  }

  lemma {:induction false} LatencyProbeStays(cfg: Config, enabled: bool, es: seq<Event>, k: nat, id: nat)
    requires Possible(cfg, NewClient(enabled), es)
    requires StartedAt(cfg, NewClient(enabled), es, k, id, false)
    ensures var l := After(cfg, NewClient(enabled), es).ledger;
            l.nextId > id && l.probe != Some(Probe(id, true))
    decreases es
  {
    var (c0, n) := (NewClient(enabled), |es| - 1);
    var (c, e) := (After(cfg, c0, es[..n]), es[n]);
    LastLiveness(cfg, enabled, es);
    hide Possible, After, CountsFailure, HeartbeatFails;
    if k < n {
      StartedBefore(cfg, c0, es[..n], e, k, id, false);
      LatencyProbeStays(cfg, enabled, es[..n], k, id);
    }
  }

  /** In a run in which no heartbeat starts a probe, nothing is ever counted and nothing torn down,
      whatever is measured. */
  lemma {:induction false} NoHeartbeatNoFailure(cfg: Config, enabled: bool, es: seq<Event>)
    requires Possible(cfg, NewClient(enabled), es)
    requires Avoids(cfg, NewClient(enabled), es, HeartbeatStarts)
    ensures var c := After(cfg, NewClient(enabled), es);
            && c.livenessFailures == 0 && c.teardowns == 0
            && (c.ledger.probe.Some? ==> !c.ledger.probe.value.drivesLivenessFailure)
    decreases es
  {
    if es != [] {
      var n := |es| - 1;
      var c := After(cfg, NewClient(enabled), es[..n]);
      LastLiveness(cfg, enabled, es);
      hide Possible, After, CountsFailure;
      NoHeartbeatNoFailure(cfg, enabled, es[..n]);
    }
  }

  // ----- Backoff -----

  lemma {:induction false} DelayGrows(cfg: Config, n: nat, m: nat)
    requires n <= m
    ensures Delay(cfg, n) <= Delay(cfg, m) <= cfg.maxDelayMs
    decreases m
  {
    if n < m {
      DelayGrows(cfg, n, m - 1);
      var d := cfg.baseDelayMs * Power2(m - 1);
      assert cfg.baseDelayMs * Power2(m) == 2 * d;
    }
  }

  /** Delays double up to the maximum. */
  lemma DelayDoubles(cfg: Config, n: nat)
    ensures Delay(cfg, 0) == if cfg.baseDelayMs < cfg.maxDelayMs then cfg.baseDelayMs else cfg.maxDelayMs
    ensures Delay(cfg, n + 1) == if 2 * Delay(cfg, n) < cfg.maxDelayMs then 2 * Delay(cfg, n) else cfg.maxDelayMs
  {
    assert cfg.baseDelayMs * Power2(n + 1) == 2 * (cfg.baseDelayMs * Power2(n));
  }

  /** In every run the first delay since the last connect is the base, each is twice the one before, and
      none is more than the maximum. */
  lemma RunBackoff(cfg: Config, enabled: bool, es: seq<Event>)
    requires Possible(cfg, NewClient(enabled), es)
    ensures var armings := After(cfg, NewClient(enabled), es).armings;
            && (armings != [] ==>
                  armings[0] == if cfg.baseDelayMs < cfg.maxDelayMs then cfg.baseDelayMs else cfg.maxDelayMs)
            && (forall n | 0 <= n < |armings| - 1 ::
                  armings[n + 1] == if 2 * armings[n] < cfg.maxDelayMs then 2 * armings[n] else cfg.maxDelayMs)
            && (forall n, m | 0 <= n <= m < |armings| :: armings[n] <= armings[m] <= cfg.maxDelayMs)
  {
    hide After, Possible, Delay;
    RunKeeps(cfg, enabled, es);
    var armings := After(cfg, NewClient(enabled), es).armings;
    DelayDoubles(cfg, 0);
    forall n: nat | n < |armings| - 1
      ensures armings[n + 1] == if 2 * armings[n] < cfg.maxDelayMs then 2 * armings[n] else cfg.maxDelayMs
    {
      DelayDoubles(cfg, n);
    }
    forall n: nat, m: nat | n <= m < |armings|
      ensures armings[n] <= armings[m] <= cfg.maxDelayMs
    {
      DelayGrows(cfg, n, m);
    }
  }

  // ----- Disposal -----

  /** Nothing brings a disposed client back. */
  lemma {:induction false} DisposedIsFinal(cfg: Config, enabled: bool, es: seq<Event>, more: seq<Event>)
    requires Possible(cfg, NewClient(enabled), es + more)
    requires After(cfg, NewClient(enabled), es).status.Disposed?
    ensures After(cfg, NewClient(enabled), es + more).status.Disposed?
    decreases more
  {
    if more == [] {
      assert es + more == es;
    } else {
      var n := |more| - 1;
      var all := es + more;
      assert all[..|all| - 1] == es + more[..n] && all[|all| - 1] == more[n];
      DisposedIsFinal(cfg, enabled, es, more[..n]);
      RunKeeps(cfg, enabled, es + more[..n]);
      StepKeeps(cfg, After(cfg, NewClient(enabled), es + more[..n]), more[n]);
    }
    hide Step, Balanced, Backoff;
  }

  // ----- Runs that break the disciplines -----

  /** A connection is made and lost: the reconnect timer is armed. */
  const LOST := [ConnectCall(Succeeds), ServerInfo({}, [], false, {}), TransportClosed]

  lemma LostArmsTimer(cfg: Config)
    ensures Possible(cfg, NewClient(true), LOST)
    ensures var c := After(cfg, NewClient(true), LOST);
            && c.status.Disconnected? && c.reconnectTimer.Some? && c.shouldReconnect && !c.connectPending
            && LeavesStaleTimer(c, ConnectCall(Succeeds))
  {
    var c0 := NewClient(true);
    var (e1, e2, e3) := (ConnectCall(Succeeds), ServerInfo({}, [], false, {}), TransportClosed);
    OneMore(cfg, c0, [], e1);
    OneMore(cfg, c0, [e1], e2);
    OneMore(cfg, c0, [e1, e2], e3);
    assert [] + [e1] == [e1] && [e1] + [e2] == [e1, e2] && [e1, e2] + [e3] == LOST;
    assert After(cfg, c0, []) == c0;
    hide Possible, After;
    DiallingThenLost(cfg);
  }

  lemma DiallingThenLost(cfg: Config)
    ensures var c := OnClose(cfg, HandleServerInfo(Connect(cfg, NewClient(true), Succeeds), {}, [], false, {}));
            && c.status.Disconnected? && c.reconnectTimer.Some? && c.shouldReconnect && !c.connectPending
    ensures HandleServerInfo(Connect(cfg, NewClient(true), Succeeds), {}, [], false, {}).attached
  {
    hide Serve, ResubscribeEach, RejectAll, Delay;
    var c1 := Connect(cfg, NewClient(true), Succeeds);
    assert c1.status.Connecting? && c1.attached && c1.shouldReconnect && c1.reconnectEnabled;
    var c2 := HandleServerInfo(c1, {}, [], false, {});
    assert c2.status.Connected? && c2.attached && c2.shouldReconnect && c2.reconnectEnabled && !c2.connectPending;
  }

  /** Calling `connect` then, and getting an answer, ends with a connected client whose old timer still
      runs, and takes it back to connecting when it fires. */
  lemma StaleTimerDropsConnection(cfg: Config)
    ensures var es := LOST + [ConnectCall(Succeeds)] + [ServerInfo({}, [], false, {})];
            && Possible(cfg, NewClient(true), es + [ReconnectTimerFired(Succeeds)])
            && After(cfg, NewClient(true), es).status.Connected?
            && After(cfg, NewClient(true), es).reconnectTimer.Some?
            && After(cfg, NewClient(true), es + [ReconnectTimerFired(Succeeds)]).status.Connecting?
  {
    var c0 := NewClient(true);
    var c := After(cfg, c0, LOST);
    LostArmsTimer(cfg);
    OneMore(cfg, c0, LOST, ConnectCall(Succeeds));
    OneMore(cfg, c0, LOST + [ConnectCall(Succeeds)], ServerInfo({}, [], false, {}));
    OneMore(cfg, c0, LOST + [ConnectCall(Succeeds)] + [ServerInfo({}, [], false, {})], ReconnectTimerFired(Succeeds));
    hide Serve, ResubscribeEach, ScheduleReconnect, Possible, After;
    var dialling := Connect(cfg, c, Succeeds);
    assert dialling.status.Connecting? && dialling.reconnectTimer.Some? && dialling.shouldReconnect;
    var up := HandleServerInfo(dialling, {}, [], false, {});
    assert up.status.Connected? && up.reconnectTimer.Some? && up.shouldReconnect;
    assert OnReconnectTimer(cfg, up, Succeeds).status.Connecting?;
  }

  /** A request is queued while the client dials. */
  const QUEUED := [ConnectCall(Succeeds), RequestCall("r", true, false)]

  lemma QueuedWaits(cfg: Config)
    ensures Possible(cfg, NewClient(true), QUEUED)
    ensures var c := After(cfg, NewClient(true), QUEUED);
            && c.status.Connecting? && c.hasTransport && c.ledger.queue == [0] && c.ledger.nextId == 1
            && WireIds(c.ledger.log) == [] && c.ledger.restored == {}
  {
    var c0 := NewClient(true);
    var (e1, e2) := (ConnectCall(Succeeds), RequestCall("r", true, false));
    OneMore(cfg, c0, [], e1);
    OneMore(cfg, c0, [e1], e2);
    assert [] + [e1] == [e1] && [e1] + [e2] == QUEUED;
    assert After(cfg, c0, []) == c0;
    hide Possible, After, WireIds;
    RequestWhileDialling(cfg);
  }

  lemma RequestWhileDialling(cfg: Config)
    ensures var c := SendRequest(Connect(cfg, NewClient(true), Succeeds), "r", true, false);
            && c.status.Connecting? && c.hasTransport && c.ledger.queue == [0] && c.ledger.nextId == 1
            && WireIds(c.ledger.log) == [] && c.ledger.restored == {}
  {
    var c1 := Connect(cfg, NewClient(true), Succeeds);
    assert c1.status.Connecting? && c1.hasTransport && c1.ledger == EMPTY_LEDGER;
    RequestWire(EMPTY_LEDGER, "r", true, Queued);
    assert WireIds([]) == [];
    hide Request, WireIds, Connect;
    assert SendPath(c1, false) == Queued;
  }

  /** An error while resubscribing then leaves the request in the queue of a connected client. */
  lemma ThrowingLeavesQueue(cfg: Config)
    ensures var es := QUEUED + [ServerInfo({}, [], true, {})];
            var c := After(cfg, NewClient(true), es);
            Possible(cfg, NewClient(true), es) && c.status.Connected? && c.ledger.queue == [0]
  {
    QueuedWaits(cfg);
    OneMore(cfg, NewClient(true), QUEUED, ServerInfo({}, [], true, {}));
    hide Possible, After;
  }

  /** A resubscription then goes on the wire before the request, which was made earlier. */
  lemma ResubscriptionOvertakes(cfg: Config)
    ensures var info := ServerInfo({}, [Resubscription("s", true, false)], false, {});
            var es := QUEUED + [info];
            var l := After(cfg, NewClient(true), es).ledger;
            && Possible(cfg, NewClient(true), es) && Overtakes(After(cfg, NewClient(true), QUEUED), info)
            && WireIds(l.log) == [1, 0] && l.restored == {1} && !InOrder(l) && EachInOrder(l)
  {
    var c := After(cfg, NewClient(true), QUEUED);
    var info := ServerInfo({}, [Resubscription("s", true, false)], false, {});
    QueuedWaits(cfg);
    OneMore(cfg, NewClient(true), QUEUED, info);
    NothingThrows(cfg, NewClient(true), QUEUED + [info]);
    RunCallersInOrder(cfg, true, QUEUED + [info]);
    OvertakingStep(cfg, c, Resubscription("s", true, false));
    hide Possible, After, WireIds, EachInOrder, InOrder, Step, Overtakes;
  }

  lemma OvertakingStep(cfg: Config, c: Client, r: Resubscription)
    requires c.status.Connecting? && c.hasTransport && c.ledger.queue == [0] && c.ledger.nextId == 1
    requires WireIds(c.ledger.log) == [] && c.ledger.restored == {} && !r.sendThrows
    ensures var info := ServerInfo({}, [r], false, {});
            var l := Step(cfg, c, info).ledger;
            Overtakes(c, info) && WireIds(l.log) == [1, 0] && l.restored == {1} && !InOrder(l)
  {
    hide WireIds, Serve, ResubscribeEach, InOrder, HandleServerInfo, Overtakes, Lost;
    SentPastQueue(c, r);
    ServerInfoLedgerIs(c, {}, [r], false, {});
    OvertakenWire(c.ledger, r);
  }

  lemma {:induction false} NothingThrows(cfg: Config, c: Client, es: seq<Event>)
    requires forall e | e in es && e.ServerInfo? :: !e.resubscribeThrows
    ensures Avoids(cfg, c, es, LeavesQueueBehind)
    decreases es
  {
    hide After;
    if es != [] {
      NothingThrows(cfg, c, es[..|es| - 1]);
    }
  }

  lemma SentPastQueue(c: Client, r: Resubscription)
    requires c.status.Connecting? && c.hasTransport && c.ledger.queue == [0] && !r.sendThrows
    ensures Overtakes(c, ServerInfo({}, [r], false, {})) && Lost(c, {}) == {}
  {
    var id := c.ledger.queue[0];
    assert id in c.ledger.queue && id !in Lost(c, {});
    assert ![r][0].sendThrows;
  }

  lemma OvertakenWire(l: Ledger, r: Resubscription)
    requires l.queue == [0] && l.nextId == 1 && WireIds(l.log) == [] && !r.sendThrows
    ensures var l' := Serve(ResubscribeEach(l, [r], true), {}, {});
            && WireIds(l'.log) == [1, 0] && l'.queue == [] && l'.restored == l.restored + {1}
            && !InOrder(l')
  {
    var back := ResubscribeEach(l, [r], true);
    OneResubscription(l, r);
    FlushedWire(l, [r], true, {});
    ServedWire(back, {}, {});
    assert WireIds(FlushQueue(back, {}).log) == [] + [1] + [0] == [1, 0];
    hide WireIds, Serve, ResubscribeEach, Sent, Successful;
    NotInOrder(Serve(back, {}, {}));
  }

  lemma OneResubscription(l: Ledger, r: Resubscription)
    requires l.nextId == 1 && !r.sendThrows
    ensures Sent(1, [r], true) == [1] && Successful([0], {}) == [0]
    ensures ResubscribeEach(l, [r], true).restored == l.restored + {1}
  {
    assert [r][..0] == [] && [0][..0] == [];
    ResubscribeOne(l, r, true);
    hide WireIds, Resubscribe;
  }

  lemma NotInOrder(l: Ledger)
    requires WireIds(l.log) == [1, 0] && l.queue == []
    ensures !InOrder(l)
  {
    var ids := WireIds(l.log) + l.queue;
    hide WireIds;
    assert ids[0] == 1 && ids[1] == 0;
  }
}
