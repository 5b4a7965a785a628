/** What each event does to the client, written out: who is settled and how, what goes on the wire,
    and what the status and the timers are afterwards. */
module ConnectionEffects {
  import opened Options
  import opened RequestLedger
  import opened Connection
  import opened ConnectionTheorems

  // ----- Counting what is logged -----

  /** The elements of `part` stand in `whole` at the places `at`, which increase. */
  ghost predicate StandsAt<T>(part: seq<T>, whole: seq<T>, at: seq<nat>) {
    && |at| == |part|
    && (forall i | 0 <= i < |at| :: at[i] < |whole| && whole[at[i]] == part[i])
    && (forall i, j | 0 <= i < j < |at| :: at[i] < at[j])
  }

  /** `part` is what is left of `whole`, in the same order. */
  ghost predicate InPlace<T>(part: seq<T>, whole: seq<T>) {
    exists at :: StandsAt(part, whole, at)
  }

  lemma {:induction false} KeepInPlace(ws: seq<Waiter>, sel: set<nat>)
    ensures InPlace(Keep(ws, sel), ws)
  {
    if ws == [] {
      assert StandsAt(Keep(ws, sel), ws, []);
    } else {
      var n := |ws| - 1;
      KeepInPlace(ws[..n], sel);
      var kept := Keep(ws[..n], sel);
      var at :| StandsAt(kept, ws[..n], at);
      if ws[n].id in sel {
        assert kept + [] == kept;
        assert StandsAt(kept, ws, at);
      } else {
        assert StandsAt(kept + [ws[n]], ws, at + [n]);
      }
    }
  }

  lemma {:induction false} SettlementsCount(ws: seq<Waiter>, sel: set<nat>, ok: bool, x: Output)
    ensures Tally(Settlements(ws, sel, ok), x)
            == if x.WaiterSettled? && x.ok == ok && x.id in sel then LiveCount(ws, x.id) else 0
  {
    if ws != [] {
      var n := |ws| - 1;
      SettlementsCount(ws[..n], sel, ok, x);
      TallyConcat(Settlements(ws[..n], sel, ok), if ws[n].id in sel then [WaiterSettled(ws[n].id, ok)] else [], x);
      TallySnoc([], WaiterSettled(ws[n].id, ok), x);
      assert [] + [WaiterSettled(ws[n].id, ok)] == [WaiterSettled(ws[n].id, ok)];
    }
  }

  lemma SettleCount(l: Ledger, sel: set<nat>, ok: bool, x: Output)
    ensures Count(SettleWaiters(l, sel, ok), x)
            == Count(l, x) + if x.WaiterSettled? && x.ok == ok && x.id in sel then LiveCount(l.waiters, x.id) else 0
  {
    SettlementsCount(l.waiters, sel, ok, x);
    TallyConcat(l.log, Settlements(l.waiters, sel, ok), x);
    hide Tally, Settlements, Keep, TimersOf, LiveCount;
  }

  lemma {:induction false} LiveAfter(ws: seq<Waiter>, sel: set<nat>, id: nat)
    ensures LiveCount(Keep(ws, sel), id) == if id in sel then 0 else LiveCount(ws, id)
  {
    if ws != [] {
      var n := |ws| - 1;
      LiveAfter(ws[..n], sel, id);
      var kept := Keep(ws[..n], sel);
      assert (kept + [ws[n]])[..|kept|] == kept;
      assert kept + [] == kept;
    }
  }

  lemma {:induction false} FlushedCount(queue: seq<nat>, lost: set<nat>, x: Output)
    ensures Tally(Flushed(queue, lost), x)
            == if (x.SendSettled? && x.ok == (x.id !in lost)) || (x.OnWire? && x.id !in lost) then Tally(queue, x.id)
               else 0
  {
    var id := x.id;
    FlushedTally(queue, lost, id);
    hide Flushed, Tally;
    match x
    case SendSettled(_, ok) => assert x == SendSettled(id, ok);
    case OnWire(_) => assert x == OnWire(id);
    case _ =>
  }

  lemma FlushCount(l: Ledger, lost: set<nat>, x: Output)
    ensures Count(FlushQueue(l, lost), x)
            == Count(l, x) + if (x.SendSettled? && x.ok == (x.id !in lost)) || (x.OnWire? && x.id !in lost)
                             then Tally(l.queue, x.id) else 0
  {
    FlushedCount(l.queue, lost, x);
    TallyConcat(l.log, Flushed(l.queue, lost), x);
    hide Tally, Flushed, SendTimers;
  }

  lemma {:induction false} CancelCount(l: Ledger, ids: seq<nat>, x: Output)
    ensures Count(CancelEach(l, ids), x)
            == Count(l, x) + if x.WaiterSettled? && !x.ok && x.id in ids then LiveCount(l.waiters, x.id) else 0
  {
    if ids != [] {
      var n := |ids| - 1;
      var before := CancelEach(l, ids[..n]);
      CancelCount(l, ids[..n], x);
      SettleCount(before, {ids[n]}, false, x);
      CancelEachKeeps(l, ids[..n]);
      LiveAfter(l.waiters, Elements(ids[..n]), x.id);
      assert x.id in ids <==> x.id in ids[..n] || x.id == ids[n];
      hide Count, SettleWaiters, Balanced, KeepsOrder, Keep, LiveCount;
    }
  }

  lemma TimerTells(l: Ledger, id: nat)
    requires Balanced(l)
    ensures SendTimer(id) in l.timers <==> id in l.queue
    ensures ProbeTimer(id) in l.timers <==> l.probe.Some? && l.probe.value.id == id
  {
    assert TimersAt(l, id);
  }

  ghost predicate Live(l: Ledger, id: nat) {
    exists w :: w in l.waiters && w.id == id
  }

  /** What is live or queued is so once. */
  lemma HeldOnce(l: Ledger, id: nat)
    requires Balanced(l)
    ensures LiveCount(l.waiters, id) == if Live(l, id) then 1 else 0
    ensures Tally(l.queue, id) == if id in l.queue then 1 else 0
    ensures Live(l, id) || id in l.queue ==> id < l.nextId
  {
    assert BalancedAt(l, id);
    LiveCountIsMembership(l.waiters, id);
    TallyIsMembership(l.queue, id);
    if id in Ids(l.waiters) {
      var w :| w in l.waiters && w.id == id;
      assert Live(l, id);
    }
    hide LiveCount, Count, Tally, ProbeBooks;
  }

  // ----- Waiters that are settled together -----

  /** Exactly the waiters in `sel` are gone, each settled once as `ok` says; the others are in place;
      nothing else is settled, sent, created or queued. */
  ghost predicate Settles(l: Ledger, l': Ledger, sel: set<nat>, ok: bool) {
    && (forall w :: w in l'.waiters <==> w in l.waiters && w.id !in sel)
    && InPlace(l'.waiters, l.waiters)
    && (forall x: Output :: Count(l', x) == Count(l, x)
          + if x.WaiterSettled? && x.ok == ok && x.id in sel && Live(l, x.id) then 1 else 0)
    && l'.queue == l.queue && l'.probe == l.probe && l'.nextId == l.nextId
  }

  lemma SettleSettles(l: Ledger, sel: set<nat>, ok: bool)
    requires Balanced(l)
    ensures Settles(l, SettleWaiters(l, sel, ok), sel, ok)
  {
    KeepMembers(l.waiters, sel);
    KeepInPlace(l.waiters, sel);
    forall x: Output
      ensures Count(SettleWaiters(l, sel, ok), x)
              == Count(l, x) + if x.WaiterSettled? && x.ok == ok && x.id in sel && Live(l, x.id) then 1 else 0
    {
      SettleCount(l, sel, ok, x);
      HeldOnce(l, x.id);
      hide SettleWaiters, Balanced, Live, LiveCount;
    }
    hide Count, Keep, InPlace, Balanced, Live, Settlements, TimersOf;
  }

  /** A message resolves exactly the waiters that accept it, and is a sign of life. */
  lemma MessageResolves(cfg: Config, c: Client, e: Event)
    requires Balanced(c.ledger)
    requires e.SessionMessage? || e.BinaryFrame? || (e.ServerInfo? && !c.status.Connecting?)
    ensures var d := Step(cfg, c, e);
            && Settles(c.ledger, d.ledger, e.matched, true)
            && d == c.(livenessFailures := 0, ledger := d.ledger)
  {
    SettleSettles(c.ledger, e.matched, true);
    hide SettleWaiters, Settles, Balanced;
  }

  /** Cancelling a request, or its timeout, rejects that waiter and no other. */
  lemma CancelRejects(cfg: Config, c: Client, id: nat, e: Event)
    requires Balanced(c.ledger) && (e == CancelCall(id) || e == RequestTimerFired(WaiterTimer(id)))
    ensures var d := Step(cfg, c, e);
            Settles(c.ledger, d.ledger, {id}, false) && d == c.(ledger := d.ledger)
  {
    SettleSettles(c.ledger, {id}, false);
    hide SettleWaiters, Settles, Balanced;
  }

  // ----- Requests -----

  lemma {:induction false} SettlementsOfOthers(ws: seq<Waiter>, id: nat)
    requires forall w | w in ws :: w.id != id
    ensures Settlements(ws, {id}, false) == []
  {
    if ws != [] {
      SettlementsOfOthers(ws[..|ws| - 1], id);
    }
  }

  /** What a request leaves, on each way its message can go. */
  lemma RequestSent(l: Ledger, requestId: string, timed: bool)
    ensures var (id, l') := (l.nextId, Request(l, requestId, timed, Direct(true)));
            && l'.nextId == id + 1 && l'.probe == l.probe && l'.queue == l.queue
            && l'.waiters == l.waiters + [Waiter(id, Some(requestId), timed)]
            && l'.log == l.log + [WaiterCreated(id), SendRequested(id), OnWire(id), SendSettled(id, true)]
  {
  }

  lemma RequestQueued(l: Ledger, requestId: string, timed: bool)
    ensures var (id, l') := (l.nextId, Request(l, requestId, timed, Queued));
            && l'.nextId == id + 1 && l'.probe == l.probe && l'.queue == l.queue + [id]
            && l'.waiters == l.waiters + [Waiter(id, Some(requestId), timed)]
            && l'.log == l.log + [WaiterCreated(id), SendRequested(id)]
  {
  }

  lemma RequestFailed(l: Ledger, requestId: string, timed: bool, path: Path)
    requires Balanced(l) && (path == Direct(false) || path.Refused?)
    ensures var (id, l') := (l.nextId, Request(l, requestId, timed, path));
            && l'.nextId == id + 1 && l'.probe == l.probe && l'.queue == l.queue
            && l'.waiters == l.waiters
            && l'.log == l.log + [WaiterCreated(id), SendRequested(id), SendSettled(id, false),
                                  WaiterSettled(id, false)]
  {
    UnsentRequestLeavesNothing(l, requestId, timed, path);
    NewSettlement(l, Waiter(l.nextId, Some(requestId), timed));
    hide Balanced, Keep, TimersOf, Settlements;
    assert l.log + [WaiterCreated(l.nextId)] + [SendRequested(l.nextId)] + [SendSettled(l.nextId, false)]
        + [WaiterSettled(l.nextId, false)]
        == l.log + [WaiterCreated(l.nextId), SendRequested(l.nextId), SendSettled(l.nextId, false),
                    WaiterSettled(l.nextId, false)];
  }

  lemma NewSettlement(l: Ledger, w: Waiter)
    requires Balanced(l) && w.id == l.nextId
    ensures Settlements(l.waiters + [w], {w.id}, false) == [WaiterSettled(w.id, false)]
  {
    forall v | v in l.waiters ensures v.id != w.id {
      HeldOnce(l, v.id);
      assert Live(l, v.id);
    }
    SettlementsOfOthers(l.waiters, w.id);
    assert (l.waiters + [w])[..|l.waiters|] == l.waiters;
  }

  /** A request of a connected client whose send works is on the wire and waits for its answer. */
  lemma RequestGoesOut(cfg: Config, c: Client, requestId: string, timed: bool)
    requires Link(c) && c.status.Connected?
    ensures var d := Step(cfg, c, RequestCall(requestId, timed, false));
            var (l, l', id) := (c.ledger, d.ledger, c.ledger.nextId);
            && d == c.(ledger := l') && l'.nextId == id + 1 && l'.probe == l.probe && l'.queue == l.queue
            && l'.waiters == l.waiters + [Waiter(id, Some(requestId), timed)]
            && l'.log == l.log + [WaiterCreated(id), SendRequested(id), OnWire(id), SendSettled(id, true)]
  {
    RequestSent(c.ledger, requestId, timed);
    hide Request;
  }

  /** A request made while connecting is queued and waits. */
  lemma RequestIsQueued(cfg: Config, c: Client, requestId: string, timed: bool, sendThrows: bool)
    requires c.status.Connecting?
    ensures var d := Step(cfg, c, RequestCall(requestId, timed, sendThrows));
            var (l, l', id) := (c.ledger, d.ledger, c.ledger.nextId);
            && d == c.(ledger := l') && l'.nextId == id + 1 && l'.probe == l.probe && l'.queue == l.queue + [id]
            && l'.waiters == l.waiters + [Waiter(id, Some(requestId), timed)]
            && l'.log == l.log + [WaiterCreated(id), SendRequested(id)]
  {
    RequestQueued(c.ledger, requestId, timed);
    hide Request;
  }

  /** Any other request is refused, or its send throws, and its waiter is rejected. */
  lemma RequestIsRefused(cfg: Config, c: Client, requestId: string, timed: bool, sendThrows: bool)
    requires Link(c) && Balanced(c.ledger)
    requires !c.status.Connecting? && (c.status.Connected? ==> sendThrows)
    ensures var d := Step(cfg, c, RequestCall(requestId, timed, sendThrows));
            var (l, l', id) := (c.ledger, d.ledger, c.ledger.nextId);
            && d == c.(ledger := l') && l'.nextId == id + 1 && l'.probe == l.probe && l'.queue == l.queue
            && l'.waiters == l.waiters
            && l'.log == l.log + [WaiterCreated(id), SendRequested(id), SendSettled(id, false),
                                  WaiterSettled(id, false)]
  {
    RequestFailed(c.ledger, requestId, timed, SendPath(c, sendThrows));
    hide Request, Balanced;
  }

  /** What a queued send that times out leaves: it is gone from the queue and rejected once, and its
      request's waiter with it. */
  ghost predicate TimesOut(l: Ledger, l': Ledger, id: nat) {
    && l'.nextId == l.nextId && l'.probe == l.probe
    && (exists k :: 0 <= k < |l.queue| && l.queue[k] == id && l'.queue == l.queue[..k] + l.queue[k + 1..])
    && (forall w :: w in l'.waiters <==> w in l.waiters && w.id != id)
    && InPlace(l'.waiters, l.waiters)
    && (forall x: Output :: Count(l', x) == Count(l, x)
          + if x == SendSettled(id, false) || (x == WaiterSettled(id, false) && Live(l, id)) then 1 else 0)
  }

  lemma SendTimesOut(cfg: Config, c: Client, id: nat)
    requires Balanced(c.ledger) && Enabled(c, RequestTimerFired(SendTimer(id)))
    ensures var d := Step(cfg, c, RequestTimerFired(SendTimer(id)));
            d == c.(ledger := d.ledger) && TimesOut(c.ledger, d.ledger, id)
  {
    hide TimesOut, Balanced, SettleWaiters, TimeOutSend;
    TimerTells(c.ledger, id);
    LedgerTimesOut(c.ledger, id);
  }

  lemma LedgerTimesOut(l: Ledger, id: nat)
    requires Balanced(l) && SendTimer(id) in l.timers && id in l.queue
    ensures TimesOut(l, SettleWaiters(TimeOutSend(l, id), {id}, false), id)
  {
    hide Balanced, SettleWaiters, Live, InPlace, Splice, Count;
    var k := FirstPlace(l.queue, id);
    SpliceAt(l.queue, id, k);
    TimeOutSendBalanced(l, id);
    SettleSettles(TimeOutSend(l, id), {id}, false);
    TimedOutCounts(l, SettleWaiters(TimeOutSend(l, id), {id}, false), id);
  }

  lemma FirstPlace(queue: seq<nat>, id: nat) returns (k: nat)
    requires id in queue
    ensures k < |queue| && queue[k] == id && forall j | 0 <= j < k :: queue[j] != id
  {
    k := 0;
    while queue[k] != id
      invariant k < |queue| && forall j | 0 <= j < k :: queue[j] != id
      decreases |queue| - k
    {
      k := k + 1;
    }
  }

  lemma TimedOutCounts(l: Ledger, l': Ledger, id: nat)
    requires Settles(TimeOutSend(l, id), l', {id}, false)
    ensures forall x: Output :: Count(l', x) == Count(l, x)
              + if x == SendSettled(id, false) || (x == WaiterSettled(id, false) && Live(l, id)) then 1 else 0
  {
    hide Count;
    var cut := TimeOutSend(l, id);
    assert cut == Record(l, SendSettled(id, false)).(queue := cut.queue, timers := cut.timers);
    assert Live(cut, id) <==> Live(l, id);
    forall x: Output
      ensures Count(l', x) == Count(l, x)
              + if x == SendSettled(id, false) || (x == WaiterSettled(id, false) && Live(l, id)) then 1 else 0
    {
      RecordCount(l, SendSettled(id, false), x);
      SameLogCount(Record(l, SendSettled(id, false)), cut, x);
    }
  }

  lemma SameLogCount(l: Ledger, l': Ledger, x: Output)
    requires l.log == l'.log
    ensures Count(l, x) == Count(l', x)
  {
  }

  // ----- The ping probe -----

  lemma PingFails(l: Ledger, drives: bool)
    requires Balanced(l) && l.probe.None?
    ensures var failed := l.(nextId := l.nextId + 1,
                             log := l.log + [ProbeStarted(l.nextId), ProbeSettled(l.nextId, false)]);
            SettleProbe(StartProbe(l, drives), false) == failed && Balanced(failed)
  {
    assert BalancedAt(l, l.nextId);
    TimerTells(l, l.nextId);
    StartProbeBalanced(l, drives);
    SettleProbeBalanced(StartProbe(l, drives), false);
    hide Balanced;
    assert l.timers + {ProbeTimer(l.nextId)} - {ProbeTimer(l.nextId)} == l.timers;
    assert l.log + [ProbeStarted(l.nextId)] + [ProbeSettled(l.nextId, false)]
        == l.log + [ProbeStarted(l.nextId), ProbeSettled(l.nextId, false)];
  }

  /** A latency call or a heartbeat pings a connected client that has no ping outstanding: the probe is
      held with its timer. */
  lemma PingStarts(cfg: Config, c: Client, e: Event)
    requires Link(c) && c.status.Connected? && c.ledger.probe.None?
    requires (e.LatencyCall? || e.HeartbeatTimerFired?) && !e.sendThrows
    ensures var (l, id, beat) := (c.ledger, c.ledger.nextId, e.HeartbeatTimerFired?);
            Step(cfg, c, e) ==
            c.(heartbeatTimer := c.heartbeatTimer && !beat,
               ledger := l.(probe := Some(Probe(id, beat)), timers := l.timers + {ProbeTimer(id)}, nextId := id + 1,
                            log := l.log + [ProbeStarted(id)]))
  {
  }

  /** A ping that cannot be sent is over at once, and counts for a heartbeat. */
  lemma PingCannotBeSent(cfg: Config, c: Client, e: Event)
    requires Link(c) && Balanced(c.ledger) && c.status.Connected? && c.ledger.probe.None?
    requires (e.LatencyCall? || e.HeartbeatTimerFired?) && e.sendThrows
    requires e.HeartbeatTimerFired? ==> c.livenessFailures == 0
    ensures var (l, id, beat) := (c.ledger, c.ledger.nextId, e.HeartbeatTimerFired?);
            Step(cfg, c, e) ==
            c.(heartbeatTimer := c.heartbeatTimer && !beat,
               livenessFailures := if beat then 1 else c.livenessFailures,
               ledger := l.(nextId := id + 1, log := l.log + [ProbeStarted(id), ProbeSettled(id, false)]))
  {
    hide Balanced, ScheduleReconnect, SettleProbe, StartProbe, DisposeTransport;
    PingFails(c.ledger, e.HeartbeatTimerFired?);
  }

  /** Otherwise neither does anything. */
  lemma PingIsSkipped(cfg: Config, c: Client, e: Event)
    requires e.LatencyCall? || e.HeartbeatTimerFired?
    requires !c.status.Connected? || c.ledger.probe.Some?
    ensures Step(cfg, c, e) == c.(heartbeatTimer := c.heartbeatTimer && !e.HeartbeatTimerFired?)
  {
  }

  /** A ping times out: the probe is gone, rejected, and counts if a heartbeat started it. */
  lemma PingTimesOut(cfg: Config, c: Client, id: nat)
    requires Link(c) && Balanced(c.ledger) && Enabled(c, RequestTimerFired(ProbeTimer(id)))
    ensures c.ledger.probe.Some? && c.ledger.probe.value.id == id
    ensures var (l, counts) := (c.ledger, c.ledger.probe.value.drivesLivenessFailure);
            !(counts && c.livenessFailures == 1) ==>
              Step(cfg, c, RequestTimerFired(ProbeTimer(id))) ==
              c.(livenessFailures := c.livenessFailures + if counts then 1 else 0,
                 ledger := l.(probe := None, timers := l.timers - {ProbeTimer(id)},
                              log := l.log + [ProbeSettled(id, false)]))
  {
    hide Balanced, ScheduleReconnect;
    TimerTells(c.ledger, id);
  }

  /** A pong resolves the outstanding ping, and is a sign of life. */
  lemma PongResolves(cfg: Config, c: Client)
    ensures var l := c.ledger;
            Step(cfg, c, Pong) ==
              if l.probe.None? then c.(livenessFailures := 0)
              else var id := l.probe.value.id;
                   c.(livenessFailures := 0, ledger := l.(probe := None, timers := l.timers - {ProbeTimer(id)},
                                                          log := l.log + [ProbeSettled(id, true)]))
  {
  }

  // ----- Losing the connection -----

  /** Everything held is rejected, once, and nothing else is settled. */
  ghost predicate RejectsEverything(l: Ledger, l': Ledger) {
    && l'.waiters == [] && l'.queue == [] && l'.probe.None? && l'.timers == {} && l'.nextId == l.nextId
    && forall x: Output :: Count(l', x) == Count(l, x)
         + if || (x.WaiterSettled? && !x.ok && Live(l, x.id))
              || (x.SendSettled? && !x.ok && x.id in l.queue)
              || (x.ProbeSettled? && !x.ok && l.probe.Some? && l.probe.value.id == x.id)
           then 1 else 0
  }

  lemma NoTimers(l: Ledger)
    requires Balanced(l) && l.waiters == [] && l.queue == [] && l.probe.None?
    ensures l.timers == {}
  {
    forall t: Timer
      ensures t !in l.timers
    {
      assert TimersAt(l, t.id);
      assert t == WaiterTimer(t.id) || t == SendTimer(t.id) || t == ProbeTimer(t.id);
    }
  }

  lemma ProbeCountAfter(l: Ledger, x: Output)
    ensures Count(SettleProbe(l, false), x)
            == Count(l, x) + if x.ProbeSettled? && !x.ok && l.probe.Some? && l.probe.value.id == x.id then 1 else 0
  {
    if l.probe.Some? { TallySnoc(l.log, ProbeSettled(l.probe.value.id, false), x); }
    hide Tally;
  }

  lemma RejectAllRejects(l: Ledger)
    requires Balanced(l)
    ensures RejectsEverything(l, RejectAll(l))
  {
    var l1 := SettleWaiters(l, Ids(l.waiters), false);
    var l2 := RejectQueue(l1);
    RejectAllBalanced(l);
    NoTimers(RejectAll(l));
    hide Balanced, SettleWaiters, FlushQueue, SettleProbe, Live, Count, LiveCount, Tally;
    forall x: Output
      ensures Count(RejectAll(l), x) == Count(l, x)
                + if || (x.WaiterSettled? && !x.ok && Live(l, x.id))
                     || (x.SendSettled? && !x.ok && x.id in l.queue)
                     || (x.ProbeSettled? && !x.ok && l.probe.Some? && l.probe.value.id == x.id)
                  then 1 else 0
    {
      RejectCounts(l, x);
    }
  }

  lemma RejectCounts(l: Ledger, x: Output)
    requires Balanced(l)
    ensures Count(RejectAll(l), x) == Count(l, x)
              + if || (x.WaiterSettled? && !x.ok && Live(l, x.id))
                   || (x.SendSettled? && !x.ok && x.id in l.queue)
                   || (x.ProbeSettled? && !x.ok && l.probe.Some? && l.probe.value.id == x.id)
                then 1 else 0
  {
    var l1 := SettleWaiters(l, Ids(l.waiters), false);
    var l2 := RejectQueue(l1);
    assert l1.queue == l.queue && l2.probe == l.probe;
    assert Live(l, x.id) ==> x.id in Ids(l.waiters);
    HeldOnce(l, x.id);
    SettleCount(l, Ids(l.waiters), false, x);
    FlushCount(l1, Elements(l1.queue), x);
    ProbeCountAfter(l2, x);
    hide Balanced, SettleWaiters, FlushQueue, SettleProbe, Live, Count, LiveCount, Tally, Ids;
  }

  /** `d` is `c`, as it is when the connection is lost, with everything rejected: disconnected, and with a
      reconnect timer armed and recorded if reconnecting is enabled. */
  ghost predicate Loses(c: Client, d: Client, pending: bool) {
    && RejectsEverything(c.ledger, d.ledger)
    && (c.reconnectEnabled ==> d.reconnectTimer.Some?)
    && d == if c.reconnectEnabled then
              c.(status := Disconnected, reconnectTimer := d.reconnectTimer, connectPending := pending,
                 reconnectAttempt := c.reconnectAttempt + 1, armings := c.armings + [d.reconnectTimer.value],
                 ledger := d.ledger)
            else
              c.(status := Disconnected, reconnectTimer := None, connectPending := pending, ledger := d.ledger)
  }

  /** The promise of `connect` stays pending as long as the client reconnects. */
  predicate StillPending(c: Client) {
    c.connectPending && c.reconnectEnabled
  }

  lemma ScheduleLoses(cfg: Config, c: Client)
    requires Balanced(c.ledger) && !c.status.Disposed? && c.shouldReconnect
    ensures Loses(c, ScheduleReconnect(cfg, c), StillPending(c))
  {
    RejectAllRejects(c.ledger);
    ScheduleCases(cfg, c);
    hide RejectsEverything, RejectAll, ScheduleReconnect, Balanced, Delay;
  }

  /** The client without its transport. */
  function Unplugged(c: Client): Client {
    c.(hasTransport := false, attached := false, connectTimer := false, genericErrorTimer := false,
       heartbeatTimer := false)
  }

  /** Which transport callbacks lose the connection, and what the others do. */
  lemma TransportEvents(cfg: Config, c: Client, e: Event)
    requires Link(c) && Balanced(c.ledger) && Enabled(c, e)
    requires e.TransportOpened? || e.TransportClosed? || e.TransportFailed?
    ensures var d := Step(cfg, c, e);
            match e
            case TransportOpened(helloSent) =>
              if helloSent then d == c.(genericErrorTimer := false)
              else Loses(c.(genericErrorTimer := false), d, StillPending(c))
            case TransportClosed => Loses(c.(connectTimer := false, genericErrorTimer := false), d, StillPending(c))
            case TransportFailed(generic) =>
              if generic then d == c.(connectTimer := false, genericErrorTimer := true)
              else Loses(c.(connectTimer := false, genericErrorTimer := false), d, StillPending(c))
            case _ => true
  {
    hide Loses, ScheduleReconnect, Balanced;
    ScheduleLoses(cfg, c.(genericErrorTimer := false));
    ScheduleLoses(cfg, c.(connectTimer := false, genericErrorTimer := false));
  }

  /** The delayed error loses a connection that is up or being made, the connect timer one being made. */
  lemma ConnectionTimers(cfg: Config, c: Client, e: Event)
    requires Link(c) && Balanced(c.ledger) && Enabled(c, e) && (e.GenericErrorTimerFired? || e.ConnectTimerFired?)
    ensures var d := Step(cfg, c, e);
            if e.GenericErrorTimerFired? then
              var quiet := c.(genericErrorTimer := false);
              if c.status.Connected? || c.status.Connecting? then Loses(quiet, d, StillPending(c)) else d == quiet
            else
              if c.status.Connecting? then Loses(Unplugged(c), d, StillPending(c)) else d == c.(connectTimer := false)
  {
    hide Loses, ScheduleReconnect, Balanced;
    ScheduleLoses(cfg, c.(genericErrorTimer := false));
    ScheduleLoses(cfg, Unplugged(c));
  }

  /** The second heartbeat failure in a row drops the transport and loses the connection: here the ping
      of a heartbeat cannot be sent. */
  lemma SecondHeartbeatLoses(cfg: Config, c: Client)
    requires Link(c) && Balanced(c.ledger) && c.status.Connected? && c.ledger.probe.None? && c.livenessFailures == 1
    ensures var l := c.ledger;
            var failed := l.(nextId := l.nextId + 1,
                             log := l.log + [ProbeStarted(l.nextId), ProbeSettled(l.nextId, false)]);
            Loses(Unplugged(c).(livenessFailures := 0, teardowns := c.teardowns + 1, ledger := failed),
                  Step(cfg, c, HeartbeatTimerFired(true)), StillPending(c))
  {
    hide Loses, RecordLivenessFailure, Balanced, SettleProbe, StartProbe;
    var l := c.ledger;
    PingFails(l, true);
    var failed := l.(nextId := l.nextId + 1, log := l.log + [ProbeStarted(l.nextId), ProbeSettled(l.nextId, false)]);
    TeardownLoses(cfg, c.(heartbeatTimer := false, ledger := failed));
  }

  /** Here its probe times out. */
  lemma SecondTimeoutLoses(cfg: Config, c: Client, id: nat)
    requires Link(c) && Balanced(c.ledger) && !c.status.Disposed? && c.livenessFailures == 1
    requires c.ledger.probe == Some(Probe(id, true))
    ensures var l := c.ledger;
            var failed := l.(probe := None, timers := l.timers - {ProbeTimer(id)},
                             log := l.log + [ProbeSettled(id, false)]);
            Loses(Unplugged(c).(livenessFailures := 0, teardowns := c.teardowns + 1, ledger := failed),
                  Step(cfg, c, RequestTimerFired(ProbeTimer(id))), StillPending(c))
  {
    hide Loses, RecordLivenessFailure, Balanced;
    SettleProbeBalanced(c.ledger, false);
    TeardownLoses(cfg, c.(ledger := SettleProbe(c.ledger, false)));
  }

  lemma TeardownLoses(cfg: Config, c: Client)
    requires Balanced(c.ledger) && !c.status.Disposed? && c.shouldReconnect && c.livenessFailures == 1
    ensures Loses(Unplugged(c).(livenessFailures := 0, teardowns := c.teardowns + 1), RecordLivenessFailure(cfg, c),
                  StillPending(c))
  {
    hide Loses, ScheduleReconnect, Balanced;
    RecordCases(cfg, c);
    ScheduleLoses(cfg, Unplugged(c).(livenessFailures := 0, teardowns := c.teardowns + 1));
  }

  // ----- Connecting -----

  /** The client with a new transport. */
  function Dialling(c: Client): Client {
    c.(status := Connecting, hasTransport := true, attached := true, connectTimer := true, genericErrorTimer := false,
       heartbeatTimer := false)
  }

  /** `d` is `c` after dialling, which loses the connection again if it fails. */
  ghost predicate Dials(c: Client, d: Client, attempt: Attempt, pending: bool) {
    if attempt.Succeeds? then d == Dialling(c).(connectPending := pending)
    else Loses(Unplugged(c).(hasTransport := attempt.AttachThrows?), d, pending)
  }

  lemma LosesAnyway(c: Client, d: Client, pending: bool, pending': bool)
    requires Loses(c, d, pending)
    ensures Loses(c, d.(connectPending := pending'), pending')
  {
    hide RejectsEverything;
  }

  lemma AttemptDials(cfg: Config, c: Client, attempt: Attempt)
    requires Balanced(c.ledger) && !c.status.Disposed? && !c.status.Connecting? && c.shouldReconnect
    ensures Dials(c, AttemptConnect(cfg, c, attempt), attempt, attempt.Succeeds? && c.connectPending)
  {
    hide Loses, ScheduleReconnect, Balanced;
    if !attempt.Succeeds? {
      var bare := Unplugged(c);
      var lost := if attempt.FactoryThrows? then bare else bare.(hasTransport := true, status := Connecting);
      ScheduleLoses(cfg, lost);
      LosesAnyway(lost, ScheduleReconnect(cfg, lost), StillPending(lost), false);
      LostFromAnyStatus(lost, bare.(hasTransport := attempt.AttachThrows?), AttemptConnect(cfg, c, attempt));
    }
  }

  lemma LostFromAnyStatus(c: Client, c': Client, d: Client)
    requires Loses(c, d, false) && c' == c.(status := c'.status)
    ensures Loses(c', d, false)
  {
    hide RejectsEverything;
  }

  lemma DialsAnyway(c: Client, d: Client, attempt: Attempt, pending: bool, pending': bool)
    requires Dials(c, d, attempt, pending)
    ensures Dials(c, d.(connectPending := pending'), attempt, pending')
  {
    hide Loses;
    if !attempt.Succeeds? { LosesAnyway(Unplugged(c).(hasTransport := attempt.AttachThrows?), d, pending, pending'); }
  }

  /** `connect` dials once: not when disposed, connected or already asked for, and not while dialling. */
  lemma ConnectDials(cfg: Config, c: Client, attempt: Attempt)
    requires Link(c) && Balanced(c.ledger)
    ensures var d := Step(cfg, c, ConnectCall(attempt));
            if c.status.Disposed? || c.status.Connected? || c.connectPending then d == c
            else if c.status.Connecting? then d == c.(connectPending := true)
            else Dials(c, d, attempt, true)
  {
    hide Link, Dials, AttemptConnect, Connect, Balanced;
    ConnectCases(cfg, c, attempt);
    assert Link(c) && !c.status.Disposed? ==> c.shouldReconnect by { WantsConnection(c); }
    if !c.status.Disposed? && !c.status.Connected? && !c.connectPending {
      if c.status.Connecting? {
        AlreadyDialling(cfg, c, attempt);
      } else {
        AttemptDials(cfg, c, attempt);
        DialsAnyway(c, AttemptConnect(cfg, c, attempt), attempt, attempt.Succeeds? && c.connectPending, true);
      }
    }
  }

  lemma WantsConnection(c: Client)
    ensures Link(c) && !c.status.Disposed? ==> c.shouldReconnect
  {
  }

  lemma AlreadyDialling(cfg: Config, c: Client, attempt: Attempt)
    requires c.status.Connecting? && c.shouldReconnect
    ensures AttemptConnect(cfg, c, attempt) == c
  {
  }

  /** `ensureConnected` clears an armed reconnect timer and dials, unless the client is disposed, up or
      dialling. A promise that was pending is rejected if dialling fails. */
  lemma EnsureConnectedDials(cfg: Config, c: Client, attempt: Attempt)
    requires Link(c) && Balanced(c.ledger)
    ensures var d := Step(cfg, c, EnsureConnectedCall(attempt));
            if c.status.Disposed? || c.status.Connected? || c.status.Connecting? then d == c
            else Dials(c.(reconnectTimer := None), d, attempt, attempt.Succeeds? || !c.connectPending)
  {
    hide Link, Dials, AttemptConnect, Connect, EnsureConnected, Balanced;
    WantsConnection(c);
    EnsureConnectedCases(cfg, c, attempt);
    var idle := c.(reconnectTimer := None);
    assert !c.status.Disposed? ==>
        c.(shouldReconnect := true) == c && c.(shouldReconnect := true, reconnectTimer := None) == idle;
    if !c.status.Disposed? && !c.status.Connected? && !c.status.Connecting? {
      AttemptDials(cfg, idle, attempt);
      if !c.connectPending {
        ConnectIs(cfg, idle, attempt);
        DialsAnyway(idle, AttemptConnect(cfg, idle, attempt), attempt, attempt.Succeeds? && c.connectPending, true);
      }
    }
  }

  lemma ConnectIs(cfg: Config, c: Client, attempt: Attempt)
    requires !c.status.Disposed? && !c.status.Connected? && !c.connectPending && c.shouldReconnect
    ensures Connect(cfg, c, attempt) == AttemptConnect(cfg, c, attempt).(connectPending := true)
  {
    assert c.(shouldReconnect := true) == c;
    hide AttemptConnect;
  }

  /** The reconnect timer dials, unless the client is dialling already. */
  lemma ReconnectTimerDials(cfg: Config, c: Client, attempt: Attempt)
    requires Link(c) && Balanced(c.ledger) && Enabled(c, ReconnectTimerFired(attempt))
    ensures var d := Step(cfg, c, ReconnectTimerFired(attempt));
            if c.status.Connecting? then d == c.(reconnectTimer := None)
            else Dials(c.(reconnectTimer := None), d, attempt, attempt.Succeeds? && c.connectPending)
  {
    hide Dials, AttemptConnect, Balanced;
    if c.status.Connecting? {
      AlreadyDialling(cfg, c.(reconnectTimer := None), attempt);
    } else {
      AttemptDials(cfg, c.(reconnectTimer := None), attempt);
    }
  }

  /** A malformed answer to a request rejects the waiters of that request, each once, and does nothing
      else. */
  lemma MalformedRejects(cfg: Config, c: Client, r: string)
    requires Balanced(c.ledger)
    ensures var d := Step(cfg, c, MalformedMessage(Some(r)));
            var asked := set w | w in c.ledger.waiters && w.requestId == Some(r) :: w.id;
            Settles(c.ledger, d.ledger, asked, false) && d == c.(ledger := d.ledger)
  {
    var asked := set w | w in c.ledger.waiters && w.requestId == Some(r) :: w.id;
    assert asked == Tagged(c.ledger.waiters, r);
    SettleSettles(c.ledger, asked, false);
    hide SettleWaiters, Settles, Balanced;
  }

  // ----- Closing and switching -----

  /** A new client is idle, wants a connection, and has no transport, no timer and nothing held. */
  lemma NewClientIsIdle(enabled: bool)
    ensures var c := NewClient(enabled);
            && c.status.Idle? && c.shouldReconnect && c.reconnectEnabled == enabled
            && Unplugged(c) == c && c.reconnectTimer.None? && !c.connectPending
            && c.reconnectAttempt == c.livenessFailures == c.teardowns == 0 && c.armings == []
            && c.ledger == Ledger([], [], None, {}, 0, [], {})
  {
  }

  /** Closing drops the transport and every timer, rejects everything held, and is for good. */
  lemma CloseDisposes(cfg: Config, c: Client)
    requires Balanced(c.ledger)
    ensures var d := Step(cfg, c, CloseCall);
            if c.status.Disposed? then d == c
            else
              && RejectsEverything(c.ledger, d.ledger)
              && d == Unplugged(c).(status := Disposed, shouldReconnect := false, connectPending := false,
                                    reconnectTimer := None, ledger := d.ledger)
  {
    RejectAllRejects(c.ledger);
    hide RejectAll, RejectsEverything, Balanced;
  }

  /** Switching reconnecting off clears an armed timer; a heartbeat is armed again while connected; a
      malformed message that answers no request does nothing. */
  lemma SwitchesAndBeats(cfg: Config, c: Client)
    ensures Step(cfg, c, SetReconnectEnabled(true)) == c.(reconnectEnabled := true)
    ensures Step(cfg, c, SetReconnectEnabled(false)) == c.(reconnectEnabled := false, reconnectTimer := None)
    ensures Step(cfg, c, HeartbeatDone) == if c.status.Connected? then c.(heartbeatTimer := true) else c
    ensures Step(cfg, c, MalformedMessage(None)) == c
  {
  }

  // ----- Server info -----

  /** What resubscribing adds: one request per element, on the wire and waiting unless its send throws. */
  ghost predicate Requested(l: Ledger, l': Ledger, rs: seq<Resubscription>) {
    && l'.queue == l.queue && l'.probe == l.probe && l'.nextId == l.nextId + |rs|
    && (forall w :: w in l'.waiters <==> w in l.waiters || NewWaiter(l.nextId, rs, w))
    && (forall x: Output :: Count(l', x) == Count(l, x) + NewCount(l.nextId, rs, x))
  }

  predicate NewWaiter(first: nat, rs: seq<Resubscription>, w: Waiter) {
    && first <= w.id < first + |rs|
    && var r := rs[w.id - first];
       !r.sendThrows && w.requestId == Some(r.requestId) && w.timed == r.timed
  }

  function NewCount(first: nat, rs: seq<Resubscription>, x: Output): nat {
    if first <= x.id < first + |rs| then
      match x
      case WaiterCreated(_) => 1
      case SendRequested(_) => 1
      case OnWire(id) => if rs[id - first].sendThrows then 0 else 1
      case SendSettled(id, ok) => if ok == !rs[id - first].sendThrows then 1 else 0
      case WaiterSettled(id, ok) => if !ok && rs[id - first].sendThrows then 1 else 0
      case _ => 0
    else 0
  }

  lemma {:induction false} ResubscribingRequests(l: Ledger, rs: seq<Resubscription>)
    requires Balanced(l)
    ensures Requested(l, ResubscribeEach(l, rs, true), rs) && Balanced(ResubscribeEach(l, rs, true))
  {
    hide Balanced, Resubscribe, Requested;
    ResubscribeEachBalanced(l, rs, true);
    if rs == [] {
      NothingRequested(l);
    } else {
      var n := |rs| - 1;
      var before := ResubscribeEach(l, rs[..n], true);
      ResubscribingRequests(l, rs[..n]);
      OneMoreRequest(before, rs[n]);
      RequestedThen(l, before, ResubscribeEach(l, rs, true), rs);
    }
  }

  lemma NothingRequested(l: Ledger)
    ensures Requested(l, l, [])
  {
    NothingNew(l.nextId);
    hide NewCount, NewWaiter;
  }

  lemma RequestedThen(l: Ledger, m: Ledger, l': Ledger, rs: seq<Resubscription>)
    requires rs != [] && Requested(l, m, rs[..|rs| - 1]) && Requested(m, l', [rs[|rs| - 1]])
    ensures Requested(l, l', rs)
  {
    hide Count, NewCount, NewWaiter;
    var n := |rs| - 1;
    forall x: Output
      ensures Count(l', x) == Count(l, x) + NewCount(l.nextId, rs, x)
    {
      NewCountSnoc(l.nextId, rs, x);
    }
    forall w
      ensures w in l'.waiters <==> w in l.waiters || NewWaiter(l.nextId, rs, w)
    {
      NewWaiterSnoc(l.nextId, rs, w);
    }
  }

  lemma NothingNew(first: nat)
    ensures forall x :: NewCount(first, [], x) == 0
    ensures forall w :: !NewWaiter(first, [], w)
  {
  }

  lemma NewCountSnoc(first: nat, rs: seq<Resubscription>, x: Output)
    requires rs != []
    ensures var n := |rs| - 1;
            NewCount(first, rs, x) == NewCount(first, rs[..n], x) + NewCount(first + n, [rs[n]], x)
  {
  }

  lemma NewWaiterSnoc(first: nat, rs: seq<Resubscription>, w: Waiter)
    requires rs != []
    ensures var n := |rs| - 1;
            NewWaiter(first, rs, w) <==> NewWaiter(first, rs[..n], w) || NewWaiter(first + n, [rs[n]], w)
  {
  }

  lemma OneMoreRequest(l: Ledger, r: Resubscription)
    requires Balanced(l)
    ensures Requested(l, Resubscribe(l, r, true), [r])
  {
    hide Balanced, Request, Count, NewCount, NewWaiter;
    var l' := Resubscribe(l, r, true);
    if r.sendThrows {
      RequestFailed(l, r.requestId, r.timed, Direct(false));
    } else {
      RequestSent(l, r.requestId, r.timed);
    }
    forall x: Output
      ensures Count(l', x) == Count(l, x) + NewCount(l.nextId, [r], x)
    {
      OneMoreCount(l, l', r, x);
    }
    forall w
      ensures w in l'.waiters <==> w in l.waiters || NewWaiter(l.nextId, [r], w)
    {
      OneMoreWaiter(l, r, w);
    }
  }

  lemma OneMoreWaiter(l: Ledger, r: Resubscription, w: Waiter)
    ensures NewWaiter(l.nextId, [r], w) <==> !r.sendThrows && w == Waiter(l.nextId, Some(r.requestId), r.timed)
  {
  }

  lemma OneMoreCount(l: Ledger, l': Ledger, r: Resubscription, x: Output)
    requires var id := l.nextId;
             l'.log == l.log + if r.sendThrows
               then [WaiterCreated(id), SendRequested(id), SendSettled(id, false), WaiterSettled(id, false)]
               else [WaiterCreated(id), SendRequested(id), OnWire(id), SendSettled(id, true)]
    ensures Count(l', x) == Count(l, x) + NewCount(l.nextId, [r], x)
  {
    var id := l.nextId;
    var (third, fourth) := if r.sendThrows then (SendSettled(id, false), WaiterSettled(id, false))
                           else (OnWire(id), SendSettled(id, true));
    var (a, b) := (l.log + [WaiterCreated(id)], l.log + [WaiterCreated(id)] + [SendRequested(id)]);
    assert l'.log == b + [third] + [fourth];
    TallySnoc(l.log, WaiterCreated(id), x);
    TallySnoc(a, SendRequested(id), x);
    TallySnoc(b, third, x);
    TallySnoc(b + [third], fourth, x);
    hide Tally;
  }

  /** What serving the queue and the waiters leaves: every queued message is sent, in this event, unless
      its send fails, and rejected then; the waiters that accept the message are resolved, and those
      of failed sends rejected; the others are in place. */
  ghost predicate Served(l: Ledger, l': Ledger, matched: set<nat>, failing: set<nat>) {
    && l'.queue == [] && l'.probe == l.probe && l'.nextId == l.nextId
    && (forall w :: w in l'.waiters <==>
          w in l.waiters && w.id !in matched && !(w.id in l.queue && w.id in failing))
    && InPlace(l'.waiters, l.waiters)
    && (forall x: Output :: Count(l', x) == Count(l, x) + ServedCount(l, matched, failing, x))
  }

  ghost function ServedCount(l: Ledger, matched: set<nat>, failing: set<nat>, x: Output): nat {
    match x
    case OnWire(id) => if id in l.queue && id !in failing then 1 else 0
    case SendSettled(id, ok) => if id in l.queue && ok == (id !in failing) then 1 else 0
    case WaiterSettled(id, ok) =>
      if Live(l, id) && (if ok then id in matched else id !in matched && id in l.queue && id in failing) then 1 else 0
    case _ => 0
  }

  lemma {:induction false} FailedAre(queue: seq<nat>, lost: set<nat>, id: nat)
    ensures id in Failed(queue, lost) <==> id in queue && id in lost
  {
    if queue != [] {
      FailedAre(queue[..|queue| - 1], lost, id);
    }
  }

  lemma ServingCounts(l: Ledger, matched: set<nat>, lost: set<nat>, x: Output)
    requires Balanced(l)
    ensures Count(Serve(l, matched, lost), x) == Count(l, x) + ServedCount(l, matched, lost, x)
  {
    hide Balanced, Count, LiveCount, Tally, FlushQueue, SettleWaiters, CancelEach, Failed, Live;
    var flushed := FlushQueue(l, lost);
    var resolved := SettleWaiters(flushed, matched, true);
    HeldOnce(l, x.id);
    FlushCount(l, lost, x);
    SettleCount(flushed, matched, true, x);
    CancelCount(resolved, Failed(l.queue, lost), x);
    FailedAre(l.queue, lost, x.id);
    LiveThrough(l, matched, lost, x.id);
  }

  lemma LiveThrough(l: Ledger, matched: set<nat>, lost: set<nat>, id: nat)
    ensures FlushQueue(l, lost).waiters == l.waiters
    ensures LiveCount(SettleWaiters(FlushQueue(l, lost), matched, true).waiters, id)
            == if id in matched then 0 else LiveCount(l.waiters, id)
  {
    LiveAfter(l.waiters, matched, id);
  }

  lemma ServingServes(l: Ledger, matched: set<nat>, lost: set<nat>)
    requires Balanced(l)
    ensures Served(l, Serve(l, matched, lost), matched, lost)
  {
    var resolved := SettleWaiters(FlushQueue(l, lost), matched, true);
    var gone := Elements(Failed(l.queue, lost));
    CancelEachKeeps(resolved, Failed(l.queue, lost));
    KeepTwice(l.waiters, matched, gone);
    KeepMembers(l.waiters, matched + gone);
    KeepInPlace(l.waiters, matched + gone);
    forall id: nat
      ensures id in gone <==> id in l.queue && id in lost
    {
      FailedAre(l.queue, lost, id);
    }
    hide Balanced, Count, Live, CancelEach, Failed, Keep, InPlace, ServedCount, TimersOf, Settlements, Flushed,
         KeepsOrder;
    forall x: Output
      ensures Count(Serve(l, matched, lost), x) == Count(l, x) + ServedCount(l, matched, lost, x)
    {
      ServingCounts(l, matched, lost, x);
    }
  }

  /** Server info makes a connecting client connected and starts the backoff afresh. It resubscribes,
      serves the queue and resolves the waiters that accept it; an error while resubscribing skips the
      rest. */
  lemma ServerInfoConnects(cfg: Config, c: Client, e: Event)
    requires Link(c) && Balanced(c.ledger) && e.ServerInfo? && c.status.Connecting?
    ensures var d := Step(cfg, c, e);
            && d == c.(status := Connected, livenessFailures := 0, connectTimer := false, heartbeatTimer := true,
                       reconnectAttempt := 0, armings := [], ledger := d.ledger,
                       connectPending := e.resubscribeThrows && c.connectPending)
            && (if e.resubscribeThrows then Requested(c.ledger, d.ledger, e.restored)
                else exists l :: Requested(c.ledger, l, e.restored) && Served(l, d.ledger, e.matched, e.failing))
  {
    var back := ResubscribeEach(c.ledger, e.restored, true);
    ResubscribingRequests(c.ledger, e.restored);
    ServingServes(back, e.matched, e.failing);
    hide Balanced, Requested, Served, ResubscribeEach, Serve;
  }

  // ----- Dictation -----

  lemma {:induction false} WaitsAre(l: Ledger, waits: seq<bool>)
    ensures var (n, l') := (|waits|, AddWaiters(l, waits));
            && l'.waiters == l.waiters + seq(n, i requires 0 <= i < n => Waiter(l.nextId + i, None, waits[i]))
            && l'.log == l.log + seq(n, i requires 0 <= i < n => WaiterCreated(l.nextId + i))
  {
    if waits != [] {
      var n := |waits| - 1;
      WaitsAre(l, waits[..n]);
      AddWaitersShape(l, waits[..n]);
      hide AddWaiters;
    }
  }

  /** A dictation call of a connected client whose send works leaves its waits, and nothing else. */
  lemma DictationWaits(cfg: Config, c: Client, waits: seq<bool>)
    requires Link(c) && c.status.Connected?
    ensures var d := Step(cfg, c, DictationCall(waits, false));
            var (l, l', n) := (c.ledger, d.ledger, |waits|);
            && d == c.(ledger := l') && l'.queue == l.queue && l'.probe == l.probe && l'.nextId == l.nextId + n
            && l'.waiters == l.waiters + seq(n, i requires 0 <= i < n => Waiter(l.nextId + i, None, waits[i]))
            && l'.log == l.log + seq(n, i requires 0 <= i < n => WaiterCreated(l.nextId + i))
  {
    WaitsAre(c.ledger, waits);
    AddWaitersShape(c.ledger, waits);
    hide AddWaiters, Balanced;
  }

  /** Any other dictation call leaves no wait: each is created and rejected, and nothing is sent. */
  lemma DictationFails(cfg: Config, c: Client, waits: seq<bool>, sendThrows: bool)
    requires Link(c) && Balanced(c.ledger) && (c.status.Connected? ==> sendThrows)
    ensures var d := Step(cfg, c, DictationCall(waits, sendThrows));
            var (l, l', n) := (c.ledger, d.ledger, |waits|);
            && d == c.(ledger := l') && l'.queue == l.queue && l'.probe == l.probe && l'.nextId == l.nextId + n
            && l'.waiters == l.waiters
            && (forall x: Output :: Count(l', x) == Count(l, x)
                  + if l.nextId <= x.id < l.nextId + n && (x.WaiterCreated? || (x.WaiterSettled? && !x.ok))
                    then 1 else 0)
  {
    hide Balanced, Dictate, Count;
    var l := c.ledger;
    DictateBalanced(l, waits, false);
    forall x: Output
      ensures Count(Dictate(l, waits, false), x) == Count(l, x)
                + if l.nextId <= x.id < l.nextId + |waits| && (x.WaiterCreated? || (x.WaiterSettled? && !x.ok))
                  then 1 else 0
    {
      DictationCount(l, waits, x);
    }
  }

  lemma DictationCount(l: Ledger, waits: seq<bool>, x: Output)
    requires Balanced(l)
    ensures Count(Dictate(l, waits, false), x) == Count(l, x)
              + if l.nextId <= x.id < l.nextId + |waits| && (x.WaiterCreated? || (x.WaiterSettled? && !x.ok))
                then 1 else 0
  {
    hide Balanced, Count, AddWaiters, CancelEach, Tally, LiveCount, Live;
    var waiting := AddWaiters(l, waits);
    WaitsAre(l, waits);
    AddWaitersShape(l, waits);
    CancelCount(waiting, Numbers(l.nextId, |waits|), x);
    HeldOnce(waiting, x.id);
    CreatedCount(l, waiting, |waits|, x);
    NumbersAre(l.nextId, |waits|, x.id);
    if l.nextId <= x.id < l.nextId + |waits| {
      WaitIsLive(l, waiting, |waits|, x.id);
    }
  }

  lemma NumbersAre(first: nat, n: nat, id: nat)
    ensures id in Numbers(first, n) <==> first <= id < first + n
  {
    if first <= id < first + n {
      assert Numbers(first, n)[id - first] == id;
    }
  }

  lemma WaitIsLive(l: Ledger, l': Ledger, n: nat, id: nat)
    requires |l'.waiters| == |l.waiters| + n
    requires forall i | |l.waiters| <= i < |l'.waiters| :: l'.waiters[i].id == l.nextId + (i - |l.waiters|)
    requires l.nextId <= id < l.nextId + n
    ensures Live(l', id)
  {
    assert l'.waiters[|l.waiters| + (id - l.nextId)].id == id;
  }

  lemma {:induction false} CreatedTally(first: nat, n: nat, x: Output)
    ensures Tally(seq(n, i requires 0 <= i < n => WaiterCreated(first + i)), x)
            == if x.WaiterCreated? && first <= x.id < first + n then 1 else 0
  {
    if n > 0 {
      CreatedTally(first, n - 1, x);
      var all := seq(n, i requires 0 <= i < n => WaiterCreated(first + i));
      assert all[..n - 1] == seq(n - 1, i requires 0 <= i < n - 1 => WaiterCreated(first + i));
    }
  }

  lemma CreatedCount(l: Ledger, l': Ledger, n: nat, x: Output)
    requires l'.log == l.log + seq(n, i requires 0 <= i < n => WaiterCreated(l.nextId + i))
    ensures Count(l', x) == Count(l, x) + if x.WaiterCreated? && l.nextId <= x.id < l.nextId + n then 1 else 0
  {
    CreatedTally(l.nextId, n, x);
    TallyConcat(l.log, seq(n, i requires 0 <= i < n => WaiterCreated(l.nextId + i)), x);
    hide Tally;
  }
}
