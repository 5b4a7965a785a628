/** The daemon client's connection, request and liveness code, updating its fields in place.
    Each method is proved to do what the state machine of `Connection` says. */
module DaemonClient {
  import opened Options
  import opened RequestLedger
  import opened Connection
  import opened ConnectionTheorems

  /** A transport, timers and promises are outside: `transport` and the timer fields say whether
      one is there, and the ghost fields record which request timers the runtime has armed and
      everything that was settled or put on the wire. */
  class DaemonClient {
    const config: Config
    var status: Status
    var transport: bool
    var transportCleanup: bool
    var reconnectTimeout: Option<nat>
    var connectTimeout: bool
    var pendingGenericTransportErrorTimeout: bool
    var livenessHeartbeatTimer: bool
    var reconnectAttempt: nat
    var shouldReconnect: bool
    var reconnectEnabled: bool
    var connectPromise: bool
    var consecutiveLivenessFailures: nat
    var waiters: seq<Waiter>
    var pendingSendQueue: seq<nat>
    var pingProbe: Option<Probe>
    var nextId: nat
    ghost var timers: set<Timer>
    ghost var log: seq<Output>
    ghost var restored: set<nat>
    ghost var armings: seq<nat>
    ghost var teardowns: nat

    ghost function Held(): Ledger
      reads this`waiters, this`pendingSendQueue, this`pingProbe, this`timers, this`nextId, this`log, this`restored
    {
      Ledger(waiters, pendingSendQueue, pingProbe, timers, nextId, log, restored)
    }

    ghost function Contents(): Client
      reads this
    {
      Client(status, transport, transportCleanup, reconnectTimeout, connectTimeout,
             pendingGenericTransportErrorTimeout, livenessHeartbeatTimer, reconnectAttempt, shouldReconnect,
             reconnectEnabled, connectPromise, consecutiveLivenessFailures, Held(), armings, teardowns)
    }

    /** The fields that the methods branch on, as the state machine sees them. */
    lemma Branches()
      ensures var c := Contents();
              && c.status == status && c.shouldReconnect == shouldReconnect && c.reconnectEnabled == reconnectEnabled
              && c.connectPending == connectPromise && c.ledger == Held()
    {
    }

    constructor (config: Config, reconnectEnabled: bool)
      ensures Contents() == NewClient(reconnectEnabled) && this.config == config
    {
      this.config := config;
      status, transport, transportCleanup := Idle, false, false;
      reconnectTimeout, connectTimeout, pendingGenericTransportErrorTimeout := None, false, false;
      livenessHeartbeatTimer, reconnectAttempt, shouldReconnect := false, 0, true;
      this.reconnectEnabled, connectPromise, consecutiveLivenessFailures := reconnectEnabled, false, 0;
      waiters, pendingSendQueue, pingProbe, nextId := [], [], None, 0;
      timers, log, restored, armings, teardowns := {}, [], {}, [], 0;
    }

    // ----- Waiters -----

    method WaitForWithCancel(tag: Option<string>, timed: bool) returns (id: nat)
      modifies this`waiters, this`nextId, this`timers, this`log
      ensures id == old(nextId) && nextId == id + 1
      ensures Held() == AddWaiter(old(Held()), tag, timed)
    {
      id := nextId;
      nextId := nextId + 1;
      if timed {
        timers := timers + {WaiterTimer(id)};
      }
      waiters := waiters + [Waiter(id, tag, timed)];
      log := log + [WaiterCreated(id)];
    }

    /** Deletes a waiter, clears its timer and settles it. */
    method SettleWaiter(w: Waiter, ok: bool)
      modifies this`waiters, this`timers, this`log
      ensures waiters == Keep(old(waiters), {w.id})
      ensures timers == old(timers) - TimersOf([w], {w.id})
      ensures log == old(log) + [WaiterSettled(w.id, ok)]
    {
      waiters := Keep(waiters, {w.id});
      ClearWaiterTimer(w);
      log := log + [WaiterSettled(w.id, ok)];
    }

    /** Every waiter whose predicate accepts the message is resolved. */
    method ResolveWaiters(matched: set<nat>)
      modifies this`waiters, this`timers, this`log
      ensures Held() == SettleWaiters(old(Held()), matched, true)
    {
      var snapshot := waiters;
      SettleEnds(snapshot, matched);
      hide Keep, KeptAfter, TimersOf, Settlements, Tagged, Balanced;
      for i := 0 to |snapshot|
        invariant waiters == KeptAfter(snapshot, i, matched)
        invariant timers == old(timers) - TimersOf(snapshot[..i], matched)
        invariant log == old(log) + Settlements(snapshot[..i], matched, true)
      {
        SettleNext(snapshot, i, matched, true);
        if snapshot[i].id in matched {
          SettleWaiter(snapshot[i], true);
        }
      }
    }

    method RejectWaitersForRequestId(requestId: string)
      requires Balanced(Held())
      modifies this`waiters, this`timers, this`log
      ensures Held() == SettleWaiters(old(Held()), Tagged(old(waiters), requestId), false)
    {
      ghost var tagged := Tagged(waiters, requestId);
      ghost var before := Held();
      hide Balanced, Tagged, Ids;
      var snapshot := waiters;
      SettleEnds(snapshot, tagged);
      hide Keep, KeptAfter, TimersOf, Settlements, Tagged, Balanced;
      for i := 0 to |snapshot|
        invariant waiters == KeptAfter(snapshot, i, tagged)
        invariant timers == old(timers) - TimersOf(snapshot[..i], tagged)
        invariant log == old(log) + Settlements(snapshot[..i], tagged, false)
      {
        SettleNext(snapshot, i, tagged, false);
        TaggedAt(before, requestId, i);
        if snapshot[i].requestId == Some(requestId) {
          SettleWaiter(snapshot[i], false);
        }
      }
    }

    method ClearWaiterTimer(w: Waiter)
      modifies this`timers
      ensures timers == old(timers) - TimersOf([w], {w.id})
    {
      if w.timed {
        timers := timers - {WaiterTimer(w.id)};
      }
    }

    method ClearWaiters()
      modifies this`waiters, this`timers, this`log
      ensures Held() == SettleWaiters(old(Held()), Ids(old(waiters)), false)
    {
      RejectEach(waiters);
      KeepNone(waiters, Ids(waiters));
      hide Keep, TimersOf, Settlements, Ids;
      waiters := [];
    }

    /** The loop of `clearWaiters`: every waiter's timer is cleared and it is rejected. */
    method RejectEach(snapshot: seq<Waiter>)
      modifies this`timers, this`log
      ensures timers == old(timers) - TimersOf(snapshot, Ids(snapshot))
      ensures log == old(log) + Settlements(snapshot, Ids(snapshot), false)
    {
      ghost var all := Ids(snapshot);
      SettleEnds(snapshot, all);
      hide Keep, KeptAfter, TimersOf, Settlements, Ids;
      for i := 0 to |snapshot|
        invariant timers == old(timers) - TimersOf(snapshot[..i], all)
        invariant log == old(log) + Settlements(snapshot[..i], all, false)
      {
        SettleNext(snapshot, i, all, false);
        InIds(snapshot, i);
        ClearWaiterTimer(snapshot[i]);
        log := log + [WaiterSettled(snapshot[i].id, false)];
      }
    }

    /** The cancel and timeout callbacks of one waiter; they do nothing once it is settled. */
    method Cancel(id: nat)
      modifies this`waiters, this`timers, this`log
      ensures Held() == SettleWaiters(old(Held()), {id}, false)
    {
      var snapshot := waiters;
      SettleEnds(snapshot, {id});
      hide Keep, KeptAfter, TimersOf, Settlements, Tagged, Balanced;
      for i := 0 to |snapshot|
        invariant waiters == KeptAfter(snapshot, i, {id})
        invariant timers == old(timers) - TimersOf(snapshot[..i], {id})
        invariant log == old(log) + Settlements(snapshot[..i], {id}, false)
      {
        SettleNext(snapshot, i, {id}, false);
        if snapshot[i].id == id {
          SettleWaiter(snapshot[i], false);
        }
      }
    }

    // ----- Sends -----

    /** Puts a message on the wire, or queues it, or refuses it; says whether it failed. */
    method SendSessionMessageOrThrow(id: nat, sendThrows: bool) returns (failed: bool)
      modifies this`pendingSendQueue, this`timers, this`log
      ensures var path := SendPath(old(Contents()), sendThrows);
              && failed == (path == Refused || path == Direct(false))
              && Held() == (if path.Queued? then Enqueue(old(Held()), id) else SendNow(old(Held()), id, !failed))
    {
      log := log + [SendRequested(id)];
      if transport && status.Connected? {
        if !sendThrows {
          log := log + [OnWire(id)];
        }
        log := log + [SendSettled(id, !sendThrows)];
        return sendThrows;
      }
      if status.Connecting? {
        timers := timers + {SendTimer(id)};
        pendingSendQueue := pendingSendQueue + [id];
        return false;
      }
      log := log + [SendSettled(id, false)];
      return true;
    }

    method SendRequest(requestId: string, timed: bool, sendThrows: bool)
      modifies this`waiters, this`nextId, this`pendingSendQueue, this`timers, this`log
      ensures Held() == Request(old(Held()), requestId, timed, SendPath(old(Contents()), sendThrows))
    {
      var id := WaitForWithCancel(Some(requestId), timed);
      var failed := SendSessionMessageOrThrow(id, sendThrows);
      hide AddWaiter, SendNow, Enqueue, SettleWaiters, SendPath;
      if failed {
        Cancel(id);
      }
    }

    method FlushPendingSendQueue(failing: set<nat>)
      modifies this`pendingSendQueue, this`timers, this`log
      ensures var lost := if transport && status.Connected? then failing else Elements(old(pendingSendQueue));
              Held() == FlushQueue(old(Held()), lost)
    {
      var queue := pendingSendQueue;
      ghost var lost := if transport && status.Connected? then failing else Elements(queue);
      pendingSendQueue := [];
      for i := 0 to |queue|
        invariant timers == old(timers) - SendTimers(queue[..i])
        invariant log == old(log) + Flushed(queue[..i], lost)
        invariant pendingSendQueue == []
      {
        assert queue[..i + 1][..i] == queue[..i];
        timers := timers - {SendTimer(queue[i])};
        if transport && status.Connected? && queue[i] !in failing {
          log := log + [OnWire(queue[i])];
          log := log + [SendSettled(queue[i], true)];
        } else {
          log := log + [SendSettled(queue[i], false)];
        }
      }
      assert queue[..|queue|] == queue;
    }

    method RejectPendingSendQueue()
      modifies this`pendingSendQueue, this`timers, this`log
      ensures Held() == RejectQueue(old(Held()))
    {
      var queue := pendingSendQueue;
      pendingSendQueue := [];
      for i := 0 to |queue|
        invariant timers == old(timers) - SendTimers(queue[..i])
        invariant log == old(log) + Flushed(queue[..i], Elements(queue))
        invariant pendingSendQueue == []
      {
        assert queue[..i + 1][..i] == queue[..i];
        timers := timers - {SendTimer(queue[i])};
        log := log + [SendSettled(queue[i], false)];
      }
      assert queue[..|queue|] == queue;
    }

    /** The timeout of a queued send: it leaves the queue, is rejected, and its request cancels. */
    method OnSendTimeout(id: nat)
      modifies this`waiters, this`pendingSendQueue, this`timers, this`log
      ensures Held() == SettleWaiters(TimeOutSend(old(Held()), id), {id}, false)
    {
      timers := timers - {SendTimer(id)};
      var idx := 0;
      while idx < |pendingSendQueue| && pendingSendQueue[idx] != id
        invariant idx <= |pendingSendQueue|
        invariant forall k | 0 <= k < idx :: pendingSendQueue[k] != id
      {
        idx := idx + 1;
      }
      SpliceAt(pendingSendQueue, id, idx);
      if idx < |pendingSendQueue| {
        pendingSendQueue := pendingSendQueue[..idx] + pendingSendQueue[idx + 1..];
      }
      log := log + [SendSettled(id, false)];
      Cancel(id);
    }

    /** A dictation call waits for its answers and sends, and cancels its waits if it cannot send. */
    method StartDictation(waits: seq<bool>, sendThrows: bool)
      modifies this`waiters, this`nextId, this`timers, this`log
      ensures Held() == Dictate(old(Held()), waits, transport && status.Connected? && !sendThrows)
    {
      ghost var before := Held();
      var first := nextId;
      hide AddWaiter, AddWaiters, CancelEach, Numbers;
      assert AddWaiters(before, waits[..0]) == before by { AddNone(before); }
      for i := 0 to |waits|
        invariant nextId == first + i
        invariant Held() == AddWaiters(before, waits[..i])
      {
        AddNext(before, waits, i);
        var id := WaitForWithCancel(None, waits[i]);
      }
      assert waits[..|waits|] == waits;
      if !transport || !status.Connected? || sendThrows {
        CancelAll(Numbers(first, |waits|));
      }
    }

    /** Cancels one wait after another, as the `finally` of a dictation call does. */
    method CancelAll(ids: seq<nat>)
      modifies this`waiters, this`timers, this`log
      ensures Held() == CancelEach(old(Held()), ids)
    {
      ghost var before := Held();
      assert CancelEach(before, ids[..0]) == before;
      hide SettleWaiters, CancelEach;
      for i := 0 to |ids|
        invariant Held() == CancelEach(before, ids[..i])
      {
        CancelNext(before, ids, i);
        Cancel(ids[i]);
      }
      assert ids[..|ids|] == ids;
    }

    /** The requests that bring the subscriptions back, once connected. */
    method Resubscribe(requests: seq<Resubscription>)
      requires status.Connected?
      modifies this`waiters, this`nextId, this`pendingSendQueue, this`timers, this`log, this`restored
      ensures Held() == ResubscribeEach(old(Held()), requests, transport)
      ensures pendingSendQueue == old(pendingSendQueue)
    {
      ghost var before := Held();
      ResubscribeWire(before, requests, transport);
      assert ResubscribeEach(before, requests[..0], transport) == before;
      hide ResubscribeEach, Request, WireIds, Sent;
      for i := 0 to |requests|
        invariant Held() == ResubscribeEach(before, requests[..i], transport)
      {
        ResubscribeNext(before, requests, transport, i);
        RestoreOne(requests[i]);
      }
      assert requests[..|requests|] == requests;
    }

    method RestoreOne(r: Resubscription)
      requires status.Connected?
      modifies this`waiters, this`nextId, this`pendingSendQueue, this`timers, this`log, this`restored
      ensures Held() == RequestLedger.Resubscribe(old(Held()), r, transport)
    {
      hide Request;
      ghost var id := nextId;
      SendRequest(r.requestId, r.timed, r.sendThrows);
      restored := restored + {id};
    }

    // ----- The ping probe -----

    method SettlePingProbe(ok: bool)
      modifies this`pingProbe, this`timers, this`log
      ensures Held() == SettleProbe(old(Held()), ok)
    {
      if pingProbe.Some? {
        var id := pingProbe.value.id;
        pingProbe := None;
        timers := timers - {ProbeTimer(id)};
        log := log + [ProbeSettled(id, ok)];
      }
    }

    method BeginProbe(drivesLivenessFailure: bool)
      modifies this`pingProbe, this`nextId, this`timers, this`log
      ensures Held() == StartProbe(old(Held()), drivesLivenessFailure)
    {
      var id := nextId;
      nextId := nextId + 1;
      timers := timers + {ProbeTimer(id)};
      pingProbe := Some(Probe(id, drivesLivenessFailure));
      log := log + [ProbeStarted(id)];
    }

    method SendPingAwaitRtt(drivesLivenessFailure: bool, sendThrows: bool)
      modifies this
      ensures Contents() == SendPing(config, old(Contents()), drivesLivenessFailure, sendThrows)
    {
      if !status.Connected? || !transport {
        return;
      }
      if pingProbe.Some? {
        return;
      }
      hide Connection.RecordLivenessFailure, StartProbe, SettleProbe;
      BeginProbe(drivesLivenessFailure);
      if sendThrows {
        SettlePingProbe(false);
        if drivesLivenessFailure {
          RecordLivenessFailure();
        }
      }
    }

    method OnPingTimeout(id: nat)
      modifies this
      ensures Contents() == ProbeTimedOut(config, old(Contents()), id)
    {
      if pingProbe.None? || pingProbe.value.id != id {
        return;
      }
      var probe := pingProbe.value;
      SettlePingProbe(false);
      if probe.drivesLivenessFailure {
        RecordLivenessFailure();
      }
    }

    method RecordLivenessFailure()
      modifies this
      ensures Contents() == Connection.RecordLivenessFailure(config, old(Contents()))
    {
      RecordCases(config, Contents());
      hide Connection.ScheduleReconnect, Connection.DisposeTransport, Connection.RecordLivenessFailure;
      var torn := CountLivenessFailure();
      hide Contents;
      if torn {
        DisposeTransport();
        ScheduleReconnect();
      }
    }

    /** Counts a failure; says whether it is the one that tears the connection down. */
    method CountLivenessFailure() returns (torn: bool)
      modifies this`consecutiveLivenessFailures, this`teardowns
      ensures var (c, n) := (old(Contents()), old(consecutiveLivenessFailures) + 1);
              && torn == (n >= LIVENESS_FAILURE_RECONNECT_THRESHOLD)
              && Contents() == if torn then c.(livenessFailures := 0, teardowns := c.teardowns + 1)
                               else c.(livenessFailures := n)
    {
      consecutiveLivenessFailures := consecutiveLivenessFailures + 1;
      torn := consecutiveLivenessFailures >= LIVENESS_FAILURE_RECONNECT_THRESHOLD;
      if torn {
        consecutiveLivenessFailures := 0;
        teardowns := teardowns + 1;
      }
    }

    method OnHeartbeatTimer(sendThrows: bool)
      modifies this
      ensures Contents() == Connection.OnHeartbeatTimer(config, old(Contents()), sendThrows)
    {
      livenessHeartbeatTimer := false;
      SendPingAwaitRtt(true, sendThrows);
    }

    method ScheduleNextLivenessHeartbeat()
      modifies this`livenessHeartbeatTimer
      ensures Contents() == OnHeartbeatDone(old(Contents()))
    {
      if !status.Connected? || livenessHeartbeatTimer {
        return;
      }
      livenessHeartbeatTimer := true;
    }

    // ----- Losing the connection -----

    method UpdateConnectionState(next: Status)
      modifies this`status
      ensures Contents() == old(Contents()).(status := next)
    {
      status := next;
    }

    /** Settling the promise of `connect`, either way, drops it. */
    method DropConnectPromise()
      modifies this`connectPromise
      ensures Contents() == old(Contents()).(connectPending := false)
    {
      connectPromise := false;
    }

    method ClearReconnectTimeout()
      modifies this`reconnectTimeout
      ensures Contents() == old(Contents()).(reconnectTimer := None)
    {
      reconnectTimeout := None;
    }

    method ResetConnectTimeout()
      modifies this`connectTimeout
      ensures Contents() == old(Contents()).(connectTimer := false)
    {
      connectTimeout := false;
    }

    /** The three calls that losing and closing the connection have in common. */
    method RejectEverything()
      modifies this`waiters, this`pendingSendQueue, this`pingProbe, this`timers, this`log
      ensures Contents() == old(Contents()).(ledger := RejectAll(old(Held())))
    {
      RejectHeld();
      hide Held, RejectAll;
    }

    method RejectHeld()
      modifies this`waiters, this`pendingSendQueue, this`pingProbe, this`timers, this`log
      ensures Held() == RejectAll(old(Held()))
    {
      hide SettleWaiters, FlushQueue, SettleProbe;
      ClearWaiters();
      RejectPendingSendQueue();
      SettlePingProbe(false);
    }

    method StopLivenessHeartbeat()
      modifies this`livenessHeartbeatTimer
      ensures Contents() == old(Contents()).(heartbeatTimer := false)
    {
      livenessHeartbeatTimer := false;
    }

    method CleanupTransport()
      modifies this`connectTimeout, this`pendingGenericTransportErrorTimeout, this`transportCleanup
      ensures Contents() == old(Contents()).(connectTimer := false, genericErrorTimer := false, attached := false)
    {
      hide Held;
      connectTimeout := false;
      pendingGenericTransportErrorTimeout := false;
      transportCleanup := false;
    }

    method DropTransport()
      modifies this`transport
      ensures Contents() == old(Contents()).(hasTransport := false)
    {
      transport := false;
    }

    method DisposeTransport()
      modifies this`livenessHeartbeatTimer, this`connectTimeout, this`pendingGenericTransportErrorTimeout,
        this`transportCleanup, this`transport
      ensures Contents() == Connection.DisposeTransport(old(Contents()))
    {
      hide Contents;
      StopLivenessHeartbeat();
      CleanupTransport();
      DropTransport();
    }

    method ScheduleReconnect()
      modifies this
      ensures Contents() == Connection.ScheduleReconnect(config, old(Contents()))
    {
      Branches();
      ScheduleCases(config, Contents());
      hide RejectAll, Connection.ArmReconnectTimer, Connection.ScheduleReconnect, Contents, Held;
      ClearReconnectTimeout();
      var wasDisposed := status.Disposed?;
      RejectEverything();
      if wasDisposed {
        DropConnectPromise();
        return;
      }
      UpdateConnectionState(Disconnected);
      if !shouldReconnect || !reconnectEnabled {
        DropConnectPromise();
        return;
      }
      ArmReconnectTimer();
    }

    method ArmReconnectTimer()
      modifies this`reconnectAttempt, this`reconnectTimeout, this`armings
      ensures Contents() == Connection.ArmReconnectTimer(config, old(Contents()))
    {
      var attempt := reconnectAttempt;
      var delay := Delay(config, attempt);
      reconnectAttempt := attempt + 1;
      reconnectTimeout := Some(delay);
      armings := armings + [delay];
    }

    // ----- Connecting -----

    method Connect(attempt: Attempt)
      modifies this
      ensures Contents() == Connection.Connect(config, old(Contents()), attempt)
    {
      Branches();
      hide Connection.AttemptConnect, Held, Contents;
      if status.Disposed? || status.Connected? || connectPromise {
        return;
      }
      WantConnection();
      AttemptConnect(attempt);
      KeepPromise();
    }

    method WantConnection()
      modifies this`shouldReconnect
      ensures Contents() == old(Contents()).(shouldReconnect := true)
    {
      hide Held;
      shouldReconnect := true;
    }

    method KeepPromise()
      modifies this`connectPromise
      ensures Contents() == old(Contents()).(connectPending := true)
    {
      connectPromise := true;
    }

    method AttemptConnect(attempt: Attempt)
      modifies this
      ensures Contents() == Connection.AttemptConnect(config, old(Contents()), attempt)
    {
      Branches();
      hide Connection.ScheduleReconnect, Contents, Held;
      if status.Disposed? {
        DropConnectPromise();
        return;
      }
      if !shouldReconnect {
        DropConnectPromise();
        return;
      }
      if status.Connecting? {
        return;
      }
      DisposeTransport();
      if !attempt.FactoryThrows? {
        BeginConnecting();
        if attempt.Succeeds? {
          AttachTransport();
          return;
        }
        ResetConnectTimeout();
      }
      ScheduleReconnect();
      DropConnectPromise();
    }

    method BeginConnecting()
      modifies this`transport, this`status, this`connectTimeout
      ensures Contents() == old(Contents()).(hasTransport := true, status := Connecting, connectTimer := true)
    {
      transport := true;
      status := Connecting;
      connectTimeout := true;
    }

    method AttachTransport()
      modifies this`transportCleanup
      ensures Contents() == old(Contents()).(attached := true)
    {
      transportCleanup := true;
    }

    method EnsureConnected(attempt: Attempt)
      modifies this
      ensures Contents() == Connection.EnsureConnected(config, old(Contents()), attempt)
    {
      Branches();
      EnsureConnectedCases(config, Contents(), attempt);
      hide Connection.AttemptConnect, Connection.Connect, Connection.EnsureConnected, Held, Contents;
      if status.Disposed? {
        return;
      }
      WantConnection();
      if status.Connected? || status.Connecting? {
        return;
      }
      ClearReconnectTimeout();
      if connectPromise {
        AttemptConnect(attempt);
        return;
      }
      Connect(attempt);
    }

    method Close()
      modifies this
      ensures Contents() == Connection.Close(old(Contents()))
    {
      if status.Disposed? {
        return;
      }
      hide RejectAll, Contents;
      StopReconnecting();
      DisposeTransport();
      RejectEverything();
      UpdateConnectionState(Disposed);
    }

    method StopReconnecting()
      modifies this`shouldReconnect, this`connectPromise, this`reconnectTimeout
      ensures Contents() == old(Contents()).(shouldReconnect := false, connectPending := false, reconnectTimer := None)
      ensures Held() == Contents().ledger
    {
      shouldReconnect := false;
      connectPromise := false;
      reconnectTimeout := None;
    }

    method SetReconnectEnabled(enabled: bool)
      modifies this`reconnectEnabled, this`reconnectTimeout
      ensures Contents() == EnableReconnect(old(Contents()), enabled)
    {
      reconnectEnabled := enabled;
      if !enabled && reconnectTimeout.Some? {
        reconnectTimeout := None;
      }
    }

    // ----- Transport callbacks and connection timers -----

    method OnTransportOpen(helloSent: bool)
      modifies this
      ensures Contents() == OnOpen(config, old(Contents()), helloSent)
    {
      hide Connection.ScheduleReconnect;
      pendingGenericTransportErrorTimeout := false;
      if !transport {
        ScheduleReconnect();
        return;
      }
      if !helloSent {
        ScheduleReconnect();
      }
    }

    method OnTransportClose()
      modifies this
      ensures Contents() == OnClose(config, old(Contents()))
    {
      hide Connection.ScheduleReconnect;
      connectTimeout := false;
      pendingGenericTransportErrorTimeout := false;
      ScheduleReconnect();
    }

    method OnTransportError(isGeneric: bool)
      modifies this
      ensures Contents() == OnError(config, old(Contents()), isGeneric)
    {
      connectTimeout := false;
      if isGeneric {
        if !pendingGenericTransportErrorTimeout {
          pendingGenericTransportErrorTimeout := true;
        }
        return;
      }
      pendingGenericTransportErrorTimeout := false;
      ScheduleReconnect();
    }

    method OnGenericErrorTimer()
      modifies this
      ensures Contents() == Connection.OnGenericErrorTimer(config, old(Contents()))
    {
      pendingGenericTransportErrorTimeout := false;
      if status.Connected? || status.Connecting? {
        ScheduleReconnect();
      }
    }

    method OnConnectTimer()
      modifies this
      ensures Contents() == Connection.OnConnectTimer(config, old(Contents()))
    {
      connectTimeout := false;
      if !status.Connecting? {
        return;
      }
      DisposeTransport();
      ScheduleReconnect();
    }

    method OnReconnectTimer(attempt: Attempt)
      modifies this
      ensures Contents() == Connection.OnReconnectTimer(config, old(Contents()), attempt)
    {
      reconnectTimeout := None;
      if !shouldReconnect {
        return;
      }
      AttemptConnect(attempt);
    }

    // ----- Messages -----

    method OnMalformed(answers: Option<string>)
      requires Balanced(Held())
      modifies this`waiters, this`timers, this`log
      ensures Contents() == Connection.OnMalformed(old(Contents()), answers)
    {
      if answers.Some? {
        RejectWaitersForRequestId(answers.value);
      }
    }

    method OnPong()
      modifies this`consecutiveLivenessFailures, this`pingProbe, this`timers, this`log
      ensures Contents() == Connection.OnPong(old(Contents()))
    {
      consecutiveLivenessFailures := 0;
      SettlePingProbe(true);
    }

    method OnMessage(matched: set<nat>)
      modifies this`consecutiveLivenessFailures, this`waiters, this`timers, this`log
      ensures Contents() == Deliver(old(Contents()), matched)
    {
      consecutiveLivenessFailures := 0;
      ResolveWaiters(matched);
    }

    /** The requests whose queued sends failed cancel their waiters, in turn. */
    method CancelFailed(queue: seq<nat>, lost: set<nat>)
      modifies this`waiters, this`timers, this`log
      ensures Held() == CancelEach(old(Held()), Failed(queue, lost))
    {
      ghost var before := Held();
      for i := 0 to |queue|
        invariant Held() == CancelEach(before, Failed(queue[..i], lost))
      {
        FailedNext(before, queue, lost, i);
        hide SettleWaiters, CancelEach, Failed;
        if queue[i] in lost {
          Cancel(queue[i]);
        }
      }
      assert queue[..|queue|] == queue;
    }

    /** The first lines of the transition: a sign of life, and the end of the connect timeout. */
    method WelcomeServer()
      modifies this`consecutiveLivenessFailures, this`connectTimeout
      ensures Contents() == Welcome(old(Contents()))
    {
      hide Held;
      consecutiveLivenessFailures := 0;
      connectTimeout := false;
    }

    method BecomeConnected()
      modifies this`reconnectAttempt, this`armings, this`status, this`livenessHeartbeatTimer
      ensures Contents() == ComeUp(old(Contents())) && status.Connected?
    {
      hide Held;
      reconnectAttempt, armings := 0, [];
      status := Connected;
      livenessHeartbeatTimer := true;
    }

    method RestoreSubscriptions(requests: seq<Resubscription>)
      requires status.Connected?
      modifies this`waiters, this`nextId, this`pendingSendQueue, this`timers, this`log, this`restored
      ensures Contents() == Restore(old(Contents()), requests)
    {
      Resubscribe(requests);
      hide ResubscribeEach, Held;
    }

    /** Flushes the queue, resolves the waiters, and lets the requests that failed cancel. */
    method FlushAndResolve(matched: set<nat>, failing: set<nat>)
      requires status.Connected?
      modifies this`waiters, this`pendingSendQueue, this`timers, this`log
      ensures Held() == Serve(old(Held()), matched, Lost(old(Contents()), failing))
    {
      hide FlushQueue, SettleWaiters, CancelEach, Failed, Elements;
      var queue := pendingSendQueue;
      var lost := if transport then failing else Elements(queue);
      FlushPendingSendQueue(failing);
      ResolveWaiters(matched);
      CancelFailed(queue, lost);
    }

    method ServeQueue(matched: set<nat>, failing: set<nat>)
      requires status.Connected?
      modifies this`waiters, this`pendingSendQueue, this`timers, this`log, this`connectPromise
      ensures Contents() == Connection.ServeQueue(old(Contents()), matched, failing)
    {
      hide Serve, Lost;
      FlushAndResolve(matched, failing);
      connectPromise := false;
    }

    method OnServerInfo(matched: set<nat>, requests: seq<Resubscription>, resubscribeThrows: bool, failing: set<nat>)
      modifies this
      ensures Contents() == HandleServerInfo(old(Contents()), matched, requests, resubscribeThrows, failing)
    {
      Branches();
      hide Contents, Deliver, Welcome, ComeUp, Restore, Connection.ServeQueue;
      if !status.Connecting? {
        OnMessage(matched);
        return;
      }
      WelcomeServer();
      BecomeConnected();
      RestoreSubscriptions(requests);
      if resubscribeThrows {
        return;
      }
      ServeQueue(matched, failing);
    }

    // ----- Events -----

    /** One event, of those that can happen now. */
    method Handle(e: Event)
      requires Enabled(Contents(), e) && Balanced(Held())
      modifies this
      ensures Contents() == Step(config, old(Contents()), e)
    {
      hide Contents, Held, Balanced, Enabled, Connection.Connect, Connection.EnsureConnected, Connection.Close,
        EnableReconnect, Connection.SendRequest, CallDictation, Settle, SendPing, OnOpen, OnClose, OnError,
        Connection.OnGenericErrorTimer, Connection.OnConnectTimer, Connection.OnReconnectTimer,
        Connection.OnHeartbeatTimer, OnHeartbeatDone, RequestTimedOut, Connection.OnMalformed, Connection.OnPong,
        HandleServerInfo, Deliver;
      match e
      case ConnectCall(attempt) => Connect(attempt);
      case EnsureConnectedCall(attempt) => EnsureConnected(attempt);
      case CloseCall => Close();
      case SetReconnectEnabled(on) => SetReconnectEnabled(on);
      case RequestCall(requestId, timed, sendThrows) => CallRequest(requestId, timed, sendThrows);
      case DictationCall(waits, sendThrows) => CallDictating(waits, sendThrows);
      case CancelCall(id) => CallCancel(id);
      case LatencyCall(sendThrows) => SendPingAwaitRtt(false, sendThrows);
      case TransportOpened(helloSent) => OnTransportOpen(helloSent);
      case TransportClosed => OnTransportClose();
      case TransportFailed(generic) => OnTransportError(generic);
      case GenericErrorTimerFired => OnGenericErrorTimer();
      case ConnectTimerFired => OnConnectTimer();
      case ReconnectTimerFired(attempt) => OnReconnectTimer(attempt);
      case HeartbeatTimerFired(sendThrows) => OnHeartbeatTimer(sendThrows);
      case HeartbeatDone => ScheduleNextLivenessHeartbeat();
      case RequestTimerFired(timer) => OnRequestTimer(timer);
      case MalformedMessage(answers) => OnMalformed(answers);
      case Pong => OnPong();
      case ServerInfo(matched, requests, throws, failing) => OnServerInfo(matched, requests, throws, failing);
      case SessionMessage(matched) => OnMessage(matched);
      case BinaryFrame(matched) => OnMessage(matched);
    }

    method CallRequest(requestId: string, timed: bool, sendThrows: bool)
      modifies this`waiters, this`nextId, this`pendingSendQueue, this`timers, this`log
      ensures Contents() == Connection.SendRequest(old(Contents()), requestId, timed, sendThrows)
    {
      SendRequest(requestId, timed, sendThrows);
      hide Held, Request, SendPath;
    }

    method CallDictating(waits: seq<bool>, sendThrows: bool)
      modifies this`waiters, this`nextId, this`timers, this`log
      ensures Contents() == CallDictation(old(Contents()), waits, sendThrows)
    {
      StartDictation(waits, sendThrows);
      hide Held, Dictate;
    }

    method CallCancel(id: nat)
      modifies this`waiters, this`timers, this`log
      ensures Contents() == Settle(old(Contents()), {id}, false)
    {
      Cancel(id);
      hide Held, SettleWaiters;
    }

    method OnRequestTimer(timer: Timer)
      modifies this
      ensures Contents() == RequestTimedOut(config, old(Contents()), timer)
    {
      hide Held, SettleWaiters, TimeOutSend, ProbeTimedOut;
      match timer
      case WaiterTimer(id) => Cancel(id);
      case SendTimer(id) => OnSendTimeout(id);
      case ProbeTimer(id) => OnPingTimeout(id);
    }
  }

  /** A client through a whole run: it does what the state machine does, so that whatever happens its
      fields are consistent, its books balance, its reconnect delays back off, and it holds nothing
      while it is down. */
  method RunClient(config: Config, reconnectEnabled: bool, events: seq<Event>) returns (client: DaemonClient)
    requires Possible(config, NewClient(reconnectEnabled), events)
    ensures fresh(client) && client.Contents() == After(config, NewClient(reconnectEnabled), events)
    ensures Balanced(client.Held())
    ensures client.reconnectAttempt == |client.armings|
    ensures client.armings != [] ==>
              client.armings[0] ==
              if config.baseDelayMs < config.maxDelayMs then config.baseDelayMs else config.maxDelayMs
    ensures forall n | 0 <= n < |client.armings| - 1 ::
              client.armings[n + 1] ==
              if 2 * client.armings[n] < config.maxDelayMs then 2 * client.armings[n] else config.maxDelayMs
    ensures client.consecutiveLivenessFailures < LIVENESS_FAILURE_RECONNECT_THRESHOLD
    ensures client.status.Disconnected? || client.status.Disposed? ==>
              client.waiters == [] && client.pendingSendQueue == [] && client.pingProbe.None?
  {
    ghost var c0 := NewClient(reconnectEnabled);
    client := new DaemonClient(config, reconnectEnabled);
    assert events[..0] == [];
    for i := 0 to |events|
      invariant fresh(client) && client.config == config
      invariant client.Contents() == After(config, c0, events[..i])
    {
      RunKeeps(config, reconnectEnabled, events[..i]) by {
        PossiblePrefix(config, c0, events, i);
      }
      PossiblePrefix(config, c0, events, i);
      assert client.Held() == client.Contents().ledger;
      hide DaemonClient.Contents, DaemonClient.Held, Balanced, Enabled, Step, After;
      client.Handle(events[i]);
    }
    assert events[..|events|] == events;
    hide After, Possible, Balanced, Delay;
    RunKeeps(config, reconnectEnabled, events);
    RunBackoff(config, reconnectEnabled, events);
  }

  /** What can happen at one point of a possible run, and what it leads to. */
  lemma {:induction false} PossiblePrefix(cfg: Config, c: Client, es: seq<Event>, i: nat)
    requires Possible(cfg, c, es) && i < |es|
    ensures Possible(cfg, c, es[..i]) && Enabled(After(cfg, c, es[..i]), es[i])
    ensures After(cfg, c, es[..i + 1]) == Step(cfg, After(cfg, c, es[..i]), es[i])
  {
    assert es[..i + 1][..i] == es[..i];
    hide Step, Enabled;
    if i < |es| - 1 {
      PossiblePrefix(cfg, c, es[..|es| - 1], i);
      assert es[..|es| - 1][..i] == es[..i];
    }
  }

  lemma AddNone(l: Ledger)
    ensures AddWaiters(l, []) == l
  {
  }

  lemma FailedNext(l: Ledger, queue: seq<nat>, lost: set<nat>, i: nat)
    requires i < |queue|
    ensures var done := CancelEach(l, Failed(queue[..i], lost));
            CancelEach(l, Failed(queue[..i + 1], lost)) ==
            if queue[i] in lost then SettleWaiters(done, {queue[i]}, false) else done
  {
    var done := Failed(queue[..i], lost);
    assert queue[..i + 1][..i] == queue[..i];
    assert (done + [queue[i]])[..|done|] == done && done + [] == done;
    hide SettleWaiters;
  }
}
