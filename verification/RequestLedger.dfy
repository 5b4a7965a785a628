/** What the client has promised and not yet answered: request waiters, sends queued until the
    connection is up, and the ping probe, with the timers armed for them and a log of what
    happened to each. Every operation keeps the books balanced. */
module RequestLedger {
  import opened Options

  /** A waiter's number is its identity; `timed` says that it has a timeout. */
  datatype Waiter = Waiter(id: nat, requestId: Option<string>, timed: bool)

  datatype Probe = Probe(id: nat, drivesLivenessFailure: bool)

  datatype Timer = WaiterTimer(id: nat) | SendTimer(id: nat) | ProbeTimer(id: nat)

  datatype Output =
    | WaiterCreated(id: nat)
    | WaiterSettled(id: nat, ok: bool)
    | SendRequested(id: nat)
    | SendSettled(id: nat, ok: bool)
    | OnWire(id: nat)
    | ProbeStarted(id: nat)
    | ProbeSettled(id: nat, ok: bool)

  /** `timers` are the timers the runtime has armed; `log` is everything that happened, oldest first;
      `restored` are the requests the client made by itself to resubscribe. One number names a
      request's waiter and its send. */
  datatype Ledger = Ledger(
    waiters: seq<Waiter>, queue: seq<nat>, probe: Option<Probe>,
    timers: set<Timer>, nextId: nat, log: seq<Output>, restored: set<nat>)

  const EMPTY_LEDGER := Ledger([], [], None, {}, 0, [], {})

  // ----- Waiters -----

  function Ids(ws: seq<Waiter>): set<nat> {
    set w | w in ws :: w.id
  }

  function Keep(ws: seq<Waiter>, sel: set<nat>): seq<Waiter>
  {
    if ws == [] then []
    else
      var n := |ws| - 1;
      Keep(ws[..n], sel) + (if ws[n].id in sel then [] else [ws[n]])
  }

  function Settlements(ws: seq<Waiter>, sel: set<nat>, ok: bool): seq<Output>
  {
    if ws == [] then []
    else
      var n := |ws| - 1;
      Settlements(ws[..n], sel, ok) + (if ws[n].id in sel then [WaiterSettled(ws[n].id, ok)] else [])
  }

  function TimersOf(ws: seq<Waiter>, sel: set<nat>): set<Timer> {
    set w | w in ws && w.id in sel && w.timed :: WaiterTimer(w.id)
  }

  /** The live waiters in `sel` are removed, their timers cleared, and they are settled in order. */
  function SettleWaiters(l: Ledger, sel: set<nat>, ok: bool): Ledger {
    l.(waiters := Keep(l.waiters, sel),
       timers := l.timers - TimersOf(l.waiters, sel),
       log := l.log + Settlements(l.waiters, sel, ok))
  }

  /** Cancelling one waiter after another; a waiter that is gone is not settled again. */
  function CancelEach(l: Ledger, ids: seq<nat>): Ledger
  {
    if ids == [] then l
    else SettleWaiters(CancelEach(l, ids[..|ids| - 1]), {ids[|ids| - 1]}, false)
  }

  function AddWaiter(l: Ledger, requestId: Option<string>, timed: bool): Ledger {
    l.(waiters := l.waiters + [Waiter(l.nextId, requestId, timed)],
       timers := l.timers + (if timed then {WaiterTimer(l.nextId)} else {}),
       nextId := l.nextId + 1,
       log := l.log + [WaiterCreated(l.nextId)])
  }

  function Tagged(ws: seq<Waiter>, requestId: string): set<nat> {
    set w | w in ws && w.requestId == Some(requestId) :: w.id
  }

  lemma {:induction false} KeepTwice(ws: seq<Waiter>, a: set<nat>, b: set<nat>)
    ensures Keep(Keep(ws, a), b) == Keep(ws, a + b)
  {
    if ws != [] {
      var n := |ws| - 1;
      KeepTwice(ws[..n], a, b);
      var kept := Keep(ws[..n], a);
      if ws[n].id in a {
        assert kept + [] == kept;
      } else {
        assert (kept + [ws[n]])[..|kept|] == kept;
      }
    }
  }

  /** Only the numbers of waiters that are there matter. */
  lemma {:induction false} KeepSame(ws: seq<Waiter>, a: set<nat>, b: set<nat>)
    requires forall w | w in ws :: w.id in a <==> w.id in b
    ensures Keep(ws, a) == Keep(ws, b)
  {
    if ws != [] {
      KeepSame(ws[..|ws| - 1], a, b);
    }
  }

  /** The waiters left after the first `i` of a snapshot have been looked at. */
  function KeptAfter(ws: seq<Waiter>, i: nat, sel: set<nat>): seq<Waiter>
    requires i <= |ws|
  {
    Keep(ws, sel * Ids(ws[..i]))
  }

  lemma KeptNext(ws: seq<Waiter>, i: nat, sel: set<nat>)
    requires i < |ws|
    ensures KeptAfter(ws, i + 1, sel) ==
              if ws[i].id in sel then Keep(KeptAfter(ws, i, sel), {ws[i].id}) else KeptAfter(ws, i, sel)
  {
    var w := ws[i];
    assert ws[..i + 1] == ws[..i] + [w];
    if w.id in sel {
      assert sel * Ids(ws[..i + 1]) == sel * Ids(ws[..i]) + {w.id};
      KeepTwice(ws, sel * Ids(ws[..i]), {w.id});
    } else {
      assert sel * Ids(ws[..i + 1]) == sel * Ids(ws[..i]);
    }
  }

  lemma TimersNext(ws: seq<Waiter>, i: nat, sel: set<nat>)
    requires i < |ws|
    ensures TimersOf(ws[..i + 1], sel) ==
            TimersOf(ws[..i], sel) + if ws[i].id in sel then TimersOf([ws[i]], {ws[i].id}) else {}
  {
    assert ws[..i + 1] == ws[..i] + [ws[i]];
  }

  lemma SettleNext(ws: seq<Waiter>, i: nat, sel: set<nat>, ok: bool)
    requires i < |ws|
    ensures var w := ws[i];
            && KeptAfter(ws, i + 1, sel) ==
               (if w.id in sel then Keep(KeptAfter(ws, i, sel), {w.id}) else KeptAfter(ws, i, sel))
            && TimersOf(ws[..i + 1], sel) ==
               TimersOf(ws[..i], sel) + (if w.id in sel then TimersOf([w], {w.id}) else {})
            && Settlements(ws[..i + 1], sel, ok) ==
               Settlements(ws[..i], sel, ok) + (if w.id in sel then [WaiterSettled(w.id, ok)] else [])
  {
    KeptNext(ws, i, sel);
    TimersNext(ws, i, sel);
    hide KeptAfter, TimersOf, Keep;
    assert ws[..i + 1][..i] == ws[..i];
  }

  lemma InIds(ws: seq<Waiter>, i: nat)
    requires i < |ws|
    ensures ws[i].id in Ids(ws)
  {
    assert ws[i] in ws;
  }

  lemma SettleEnds(ws: seq<Waiter>, sel: set<nat>)
    ensures KeptAfter(ws, 0, sel) == ws && KeptAfter(ws, |ws|, sel) == Keep(ws, sel)
    ensures TimersOf(ws[..0], sel) == {} && Settlements(ws[..0], sel, true) == Settlements(ws[..0], sel, false) == []
    ensures ws[..|ws|] == ws
  {
    assert ws[..|ws|] == ws;
    KeepSame(ws, sel * Ids(ws), sel);
    KeepAll(ws, {});
    assert sel * Ids(ws[..0]) == {};
  }

  // ----- Sends -----

  function Enqueue(l: Ledger, id: nat): Ledger {
    l.(queue := l.queue + [id],
       timers := l.timers + {SendTimer(id)},
       log := l.log + [SendRequested(id)])
  }

  function Record(l: Ledger, x: Output): Ledger {
    l.(log := l.log + [x])
  }

  /** A send that is answered at once, without the queue. */
  function SendNow(l: Ledger, id: nat, ok: bool): Ledger {
    var asked := Record(l, SendRequested(id));
    if ok then Record(Record(asked, OnWire(id)), SendSettled(id, true))
    else Record(asked, SendSettled(id, false))
  }

  function SendTimers(ids: seq<nat>): set<Timer> {
    set id | id in ids :: SendTimer(id)
  }

  /** What flushing the queue does, when the sends in `failing` throw. */
  function Flushed(queue: seq<nat>, failing: set<nat>): seq<Output>
  {
    if queue == [] then []
    else
      var n := |queue| - 1;
      Flushed(queue[..n], failing)
      + (if queue[n] in failing then [SendSettled(queue[n], false)]
         else [OnWire(queue[n]), SendSettled(queue[n], true)])
  }

  /** The queued sends that fail in such a flush, in order. */
  function Failed(queue: seq<nat>, failing: set<nat>): seq<nat>
  {
    if queue == [] then []
    else
      var n := |queue| - 1;
      Failed(queue[..n], failing) + (if queue[n] in failing then [queue[n]] else [])
  }

  function FlushQueue(l: Ledger, failing: set<nat>): Ledger {
    l.(queue := [], timers := l.timers - SendTimers(l.queue), log := l.log + Flushed(l.queue, failing))
  }

  function Elements(ids: seq<nat>): set<nat> {
    set id | id in ids
  }

  /** Rejecting every queued send is a flush in which they all fail. */
  function RejectQueue(l: Ledger): Ledger {
    FlushQueue(l, Elements(l.queue))
  }

  /** `splice` at the first index that holds `id`. */
  function Splice(queue: seq<nat>, id: nat): seq<nat> {
    if queue == [] then []
    else if queue[0] == id then queue[1..]
    else [queue[0]] + Splice(queue[1..], id)
  }

  lemma {:induction false} SpliceAt(queue: seq<nat>, id: nat, k: nat)
    requires k <= |queue| && (forall j | 0 <= j < k :: queue[j] != id) && (k < |queue| ==> queue[k] == id)
    ensures Splice(queue, id) == if k < |queue| then queue[..k] + queue[k + 1..] else queue
  {
    if k > 0 {
      var rest := queue[1..];
      SpliceAt(rest, id, k - 1);
      assert [queue[0]] + rest == queue;
      if k < |queue| {
        assert [queue[0]] + rest[..k - 1] == queue[..k];
        assert rest[k..] == queue[k + 1..];
        Regroup([queue[0]], rest[..k - 1], rest[k..]);
      }
    }
  }

  function TimeOutSend(l: Ledger, id: nat): Ledger {
    l.(queue := Splice(l.queue, id), timers := l.timers - {SendTimer(id)}, log := l.log + [SendSettled(id, false)])
  }

  // ----- The probe -----

  function StartProbe(l: Ledger, drives: bool): Ledger {
    l.(probe := Some(Probe(l.nextId, drives)),
       timers := l.timers + {ProbeTimer(l.nextId)},
       nextId := l.nextId + 1,
       log := l.log + [ProbeStarted(l.nextId)])
  }

  function SettleProbe(l: Ledger, ok: bool): Ledger {
    match l.probe
    case None => l
    case Some(p) =>
      l.(probe := None, timers := l.timers - {ProbeTimer(p.id)}, log := l.log + [ProbeSettled(p.id, ok)])
  }

  // ----- Everything at once, when the connection is lost -----

  function RejectAll(l: Ledger): Ledger {
    SettleProbe(RejectQueue(SettleWaiters(l, Ids(l.waiters), false)), false)
  }

  // ----- A request -----

  /** How a request's message leaves: at once, into the queue, or not at all. */
  datatype Path = Direct(ok: bool) | Queued | Refused

  /** A request creates its waiter, then sends; a failed send cancels the waiter. */
  function Request(l: Ledger, requestId: string, timed: bool, path: Path): Ledger {
    var id := l.nextId;
    var waiting := AddWaiter(l, Some(requestId), timed);
    match path
    case Queued => Enqueue(waiting, id)
    case Direct(true) => SendNow(waiting, id, true)
    case _ => SettleWaiters(SendNow(waiting, id, false), {id}, false)
  }

  /** The waits of a dictation call, without a request id. */
  function AddWaiters(l: Ledger, timed: seq<bool>): Ledger
  {
    if timed == [] then l else AddWaiter(AddWaiters(l, timed[..|timed| - 1]), None, timed[|timed| - 1])
  }

  /** `n` numbers from `first` on. */
  function Numbers(first: nat, n: nat): seq<nat> {
    seq(n, i requires 0 <= i < n => first + i)
  }

  /** A dictation call waits, then sends; if it could not send it cancels its waits. */
  function Dictate(l: Ledger, timed: seq<bool>, sent: bool): Ledger {
    var waiting := AddWaiters(l, timed);
    if sent then waiting else CancelEach(waiting, Numbers(l.nextId, |timed|))
  }

  /** A request the client makes by itself when the connection is up again. */
  datatype Resubscription = Resubscription(requestId: string, timed: bool, sendThrows: bool)

  function ResubscribePath(r: Resubscription, open: bool): Path {
    if open then Direct(!r.sendThrows) else Refused
  }

  function Resubscribe(l: Ledger, r: Resubscription, open: bool): Ledger {
    Request(l, r.requestId, r.timed, ResubscribePath(r, open)).(restored := l.restored + {l.nextId})
  }

  /** The resubscription requests, one after the other. */
  function ResubscribeEach(l: Ledger, rs: seq<Resubscription>, open: bool): Ledger
  {
    if rs == [] then l else Resubscribe(ResubscribeEach(l, rs[..|rs| - 1], open), rs[|rs| - 1], open)
  }

  lemma CancelNext(l: Ledger, ids: seq<nat>, i: nat)
    requires i < |ids|
    ensures CancelEach(l, ids[..i + 1]) == SettleWaiters(CancelEach(l, ids[..i]), {ids[i]}, false)
  {
    assert ids[..i + 1][..i] == ids[..i];
    hide SettleWaiters;
  }

  lemma AddNext(l: Ledger, timed: seq<bool>, i: nat)
    requires i < |timed|
    ensures AddWaiters(l, timed[..i + 1]) == AddWaiter(AddWaiters(l, timed[..i]), None, timed[i])
  {
    assert timed[..i + 1][..i] == timed[..i];
    hide AddWaiter;
  }

  lemma ResubscribeNext(l: Ledger, rs: seq<Resubscription>, open: bool, i: nat)
    requires i < |rs|
    ensures ResubscribeEach(l, rs[..i + 1], open) == Resubscribe(ResubscribeEach(l, rs[..i], open), rs[i], open)
  {
    assert rs[..i + 1][..i] == rs[..i];
    hide Resubscribe;
  }

  // ----- The books -----

  /** How often `x` occurs in a sequence. */
  function Tally<T(==)>(s: seq<T>, x: T): nat
  {
    if s == [] then 0
    else Tally(s[..|s| - 1], x) + (if s[|s| - 1] == x then 1 else 0)
  }

  lemma {:induction false} TallyConcat<T>(a: seq<T>, b: seq<T>, x: T)
    ensures Tally(a + b, x) == Tally(a, x) + Tally(b, x)
  {
    if b == [] {
      assert a + b == a;
    } else {
      var n := |b| - 1;
      TallyConcat(a, b[..n], x);
      assert (a + b)[..|a| + n] == a + b[..n];
    }
  }

  lemma TallySnoc<T>(s: seq<T>, x: T, y: T)
    ensures Tally(s + [x], y) == Tally(s, y) + (if x == y then 1 else 0)
  {
    assert (s + [x])[..|s|] == s;
  }

  lemma {:induction false} TallyIsMembership<T>(s: seq<T>, x: T)
    ensures Tally(s, x) > 0 <==> x in s
  {
    if s != [] {
      TallyIsMembership(s[..|s| - 1], x);
    }
  }

  function Count(l: Ledger, x: Output): nat {
    Tally(l.log, x)
  }

  function LiveCount(ws: seq<Waiter>, id: nat): nat
  {
    if ws == [] then 0
    else LiveCount(ws[..|ws| - 1], id) + (if ws[|ws| - 1].id == id then 1 else 0)
  }

  function ProbeCount(p: Option<Probe>, id: nat): nat {
    if p.Some? && p.value.id == id then 1 else 0
  }

  /** Each waiter was created at most once; it was settled once or it is live, never both. */
  ghost predicate WaiterBooks(l: Ledger, id: nat) {
    && Count(l, WaiterCreated(id)) ==
       Count(l, WaiterSettled(id, true)) + Count(l, WaiterSettled(id, false)) + LiveCount(l.waiters, id) <= 1
    && (id >= l.nextId ==> Count(l, WaiterCreated(id)) == 0)
  }

  /** Each send was requested at most once; it was settled once or it is queued, never both;
      and it succeeded exactly if it went on the wire, which it did at most once. */
  ghost predicate SendBooks(l: Ledger, id: nat) {
    && Count(l, SendRequested(id)) ==
       Count(l, SendSettled(id, true)) + Count(l, SendSettled(id, false)) + Tally(l.queue, id) <= 1
    && Count(l, OnWire(id)) == Count(l, SendSettled(id, true))
    && (id >= l.nextId ==> Count(l, SendRequested(id)) == 0)
  }

  ghost predicate ProbeBooks(l: Ledger, id: nat) {
    && Count(l, ProbeStarted(id)) ==
       Count(l, ProbeSettled(id, true)) + Count(l, ProbeSettled(id, false)) + ProbeCount(l.probe, id) <= 1
    && (id >= l.nextId ==> Count(l, ProbeStarted(id)) == 0)
  }

  ghost predicate BalancedAt(l: Ledger, id: nat) {
    WaiterBooks(l, id) && SendBooks(l, id) && ProbeBooks(l, id)
  }

  /** A timer is armed exactly for what is held: live waiters with a timeout, queued sends, the probe. */
  ghost predicate TimersAt(l: Ledger, id: nat) {
    && (WaiterTimer(id) in l.timers <==> exists w | w in l.waiters :: w.id == id && w.timed)
    && (SendTimer(id) in l.timers <==> id in l.queue)
    && (ProbeTimer(id) in l.timers <==> ProbeCount(l.probe, id) == 1)
  }

  ghost predicate Balanced(l: Ledger) {
    forall id: nat :: BalancedAt(l, id) && TimersAt(l, id)
  }

  lemma EmptyLedgerBalanced()
    ensures Balanced(EMPTY_LEDGER)
  {
    forall id: nat
      ensures BalancedAt(EMPTY_LEDGER, id) && TimersAt(EMPTY_LEDGER, id)
    {
    }
  }

  lemma {:induction false} LiveCountIsMembership(ws: seq<Waiter>, id: nat)
    ensures LiveCount(ws, id) > 0 <==> id in Ids(ws)
  {
    if ws != [] {
      var n := |ws| - 1;
      LiveCountIsMembership(ws[..n], id);
      assert forall w :: w in ws <==> w in ws[..n] || w == ws[n];
    }
  }

  lemma {:induction false} KeepMembers(ws: seq<Waiter>, sel: set<nat>)
    ensures forall w :: w in Keep(ws, sel) <==> w in ws && w.id !in sel
  {
    if ws != [] {
      var n := |ws| - 1;
      KeepMembers(ws[..n], sel);
      assert forall w :: w in ws <==> w in ws[..n] || w == ws[n];
    }
  }

  /** Per waiter number: settled now plus kept is what was live. */
  lemma {:induction false} SettlementsTally(ws: seq<Waiter>, sel: set<nat>, ok: bool, id: nat)
    ensures var done := Settlements(ws, sel, ok);
            && Tally(done, WaiterSettled(id, ok)) + LiveCount(Keep(ws, sel), id) == LiveCount(ws, id)
            && forall x: Output | !x.WaiterSettled? || x.ok != ok :: Tally(done, x) == 0
  {
    if ws != [] {
      var n := |ws| - 1;
      SettlementsTally(ws[..n], sel, ok, id);
      var keep, done := Keep(ws[..n], sel), Settlements(ws[..n], sel, ok);
      var x := WaiterSettled(ws[n].id, ok);
      if ws[n].id !in sel {
        assert (keep + [ws[n]])[..|keep|] == keep;
        assert done + [] == done;
      } else {
        assert keep + [] == keep;
        assert (done + [x])[..|done|] == done;
      }
    }
  }

  lemma SettleWaitersBalanced(l: Ledger, sel: set<nat>, ok: bool)
    requires Balanced(l)
    ensures Balanced(SettleWaiters(l, sel, ok))
  {
    var l' := SettleWaiters(l, sel, ok);
    KeepMembers(l.waiters, sel);
    forall id: nat
      ensures BalancedAt(l', id) && TimersAt(l', id)
    {
      assert BalancedAt(l, id) && TimersAt(l, id);
      SettlementsTally(l.waiters, sel, ok, id);
      CountsAfter(l, l', Settlements(l.waiters, sel, ok), id);
    }
  }

  lemma CountsAfter(l: Ledger, l': Ledger, more: seq<Output>, id: nat)
    requires l'.log == l.log + more
    ensures Count(l', WaiterCreated(id)) == Count(l, WaiterCreated(id)) + Tally(more, WaiterCreated(id))
    ensures Count(l', WaiterSettled(id, true))
            == Count(l, WaiterSettled(id, true)) + Tally(more, WaiterSettled(id, true))
    ensures Count(l', WaiterSettled(id, false))
            == Count(l, WaiterSettled(id, false)) + Tally(more, WaiterSettled(id, false))
    ensures Count(l', SendRequested(id)) == Count(l, SendRequested(id)) + Tally(more, SendRequested(id))
    ensures Count(l', SendSettled(id, true)) == Count(l, SendSettled(id, true)) + Tally(more, SendSettled(id, true))
    ensures Count(l', SendSettled(id, false)) == Count(l, SendSettled(id, false)) + Tally(more, SendSettled(id, false))
    ensures Count(l', OnWire(id)) == Count(l, OnWire(id)) + Tally(more, OnWire(id))
    ensures Count(l', ProbeStarted(id)) == Count(l, ProbeStarted(id)) + Tally(more, ProbeStarted(id))
    ensures Count(l', ProbeSettled(id, true)) == Count(l, ProbeSettled(id, true)) + Tally(more, ProbeSettled(id, true))
    ensures Count(l', ProbeSettled(id, false))
            == Count(l, ProbeSettled(id, false)) + Tally(more, ProbeSettled(id, false))
  {
    forall x: Output
      ensures Tally(l.log + more, x) == Tally(l.log, x) + Tally(more, x)
    {
      TallyConcat(l.log, more, x);
    }
  }

  lemma {:induction false} CancelEachKeeps(l: Ledger, ids: seq<nat>)
    ensures Balanced(l) ==> Balanced(CancelEach(l, ids))
    ensures KeepsOrder(l, CancelEach(l, ids))
    ensures SameButWaiters(l, CancelEach(l, ids))
    ensures CancelEach(l, ids).waiters == Keep(l.waiters, Elements(ids))
    decreases ids
  {
    if ids == [] {
      KeepAll(l.waiters, Elements(ids));
    } else {
      var n := |ids| - 1;
      CancelEachKeeps(l, ids[..n]);
      var before := CancelEach(l, ids[..n]);
      KeepTwice(l.waiters, Elements(ids[..n]), {ids[n]});
      assert Elements(ids) == Elements(ids[..n]) + {ids[n]};
      if Balanced(before) { SettleWaitersBalanced(before, {ids[n]}, false); }
      SettleWaitersKeepsOrder(before, {ids[n]}, false);
      hide Balanced, KeepsOrder, Keep, TimersOf, Settlements;
      OrderKeptTwice(l, before, CancelEach(l, ids));
    }
  }

  /** Nothing but waiters, their timers and the log has changed. */
  predicate SameButWaiters(l: Ledger, l': Ledger) {
    l'.queue == l.queue && l'.probe == l.probe && l'.nextId == l.nextId && l'.restored == l.restored
  }

  lemma OneWaiterPerId(l: Ledger, w: Waiter)
    requires Balanced(l) && w in l.waiters
    ensures forall v | v in l.waiters && v.id == w.id :: v == w
  {
    assert BalancedAt(l, w.id);
    LiveTwice(l.waiters, w.id);
  }

  lemma {:induction false} LiveTwice(ws: seq<Waiter>, id: nat)
    requires LiveCount(ws, id) <= 1
    ensures forall v, w | v in ws && w in ws && v.id == w.id == id :: v == w
  {
    if ws != [] {
      var n := |ws| - 1;
      LiveTwice(ws[..n], id);
      LiveCountIsMembership(ws[..n], id);
      assert forall w :: w in ws <==> w in ws[..n] || w == ws[n];
    }
  }

  lemma TaggedAt(l: Ledger, requestId: string, i: nat)
    requires Balanced(l) && i < |l.waiters|
    ensures l.waiters[i].id in Tagged(l.waiters, requestId) <==> l.waiters[i].requestId == Some(requestId)
  {
    OneWaiterPerId(l, l.waiters[i]);
  }

  lemma AddWaiterBalanced(l: Ledger, requestId: Option<string>, timed: bool)
    requires Balanced(l)
    ensures Balanced(AddWaiter(l, requestId, timed))
  {
    var l' := AddWaiter(l, requestId, timed);
    assert l'.waiters[..|l.waiters|] == l.waiters;
    forall id: nat
      ensures BalancedAt(l', id) && TimersAt(l', id)
    {
      assert BalancedAt(l, id) && TimersAt(l, id);
      LiveCountIsMembership(l.waiters, id);
    }
  }

  lemma SameTimers(l: Ledger, l': Ledger, id: nat)
    requires TimersAt(l, id)
    requires l'.timers == l.timers && l'.waiters == l.waiters && l'.queue == l.queue && l'.probe == l.probe
    ensures TimersAt(l', id)
  {
  }

  lemma SendNowBooks(l: Ledger, id: nat, ok: bool, k: nat)
    requires BalancedAt(l, k) && id < l.nextId && Count(l, SendRequested(id)) == 0 && BalancedAt(l, id)
    ensures BalancedAt(SendNow(l, id, ok), k)
  {
    SendNowCounts(l, id, ok);
    var l' := SendNow(l, id, ok);
    assert l'.waiters == l.waiters && l'.queue == l.queue && l'.probe == l.probe && l'.nextId == l.nextId;
    hide Count, SendNow, LiveCount, ProbeCount, Tally;
  }

  lemma SendNowBalanced(l: Ledger, id: nat, ok: bool)
    requires Balanced(l) && id < l.nextId && Count(l, SendRequested(id)) == 0
    ensures Balanced(SendNow(l, id, ok))
  {
    forall k: nat
      ensures BalancedAt(SendNow(l, id, ok), k) && TimersAt(SendNow(l, id, ok), k)
    {
      assert BalancedAt(l, k) && TimersAt(l, k) && BalancedAt(l, id);
      SendNowBooks(l, id, ok, k);
      SameTimers(l, SendNow(l, id, ok), k);
      hide BalancedAt, TimersAt, Count;
    }
  }

  lemma SendNowCounts(l: Ledger, id: nat, ok: bool)
    ensures forall x: Output :: Count(SendNow(l, id, ok), x) == Count(l, x)
              + (if x == SendRequested(id) || x == SendSettled(id, ok) || (ok && x == OnWire(id)) then 1 else 0)
  {
    var asked := Record(l, SendRequested(id));
    forall x: Output
      ensures Count(SendNow(l, id, ok), x) == Count(l, x)
                + (if x == SendRequested(id) || x == SendSettled(id, ok) || (ok && x == OnWire(id)) then 1 else 0)
    {
      RecordCount(l, SendRequested(id), x);
      if ok {
        RecordCount(asked, OnWire(id), x);
        RecordCount(Record(asked, OnWire(id)), SendSettled(id, true), x);
      } else {
        RecordCount(asked, SendSettled(id, false), x);
      }
    }
  }

  lemma RecordCount(l: Ledger, x: Output, y: Output)
    ensures Count(Record(l, x), y) == Count(l, y) + (if x == y then 1 else 0)
  {
    TallySnoc(l.log, x, y);
  }

  lemma EnqueueBalanced(l: Ledger, id: nat)
    requires Balanced(l) && id < l.nextId && Count(l, SendRequested(id)) == 0
    ensures Balanced(Enqueue(l, id))
  {
    forall k: nat
      ensures BalancedAt(Enqueue(l, id), k) && TimersAt(Enqueue(l, id), k)
    {
      assert BalancedAt(l, k) && TimersAt(l, k);
    }
  }

  lemma {:induction false} FlushedTally(queue: seq<nat>, failing: set<nat>, id: nat)
    ensures var done := Flushed(queue, failing);
            && Tally(done, SendSettled(id, id !in failing)) == Tally(queue, id)
            && Tally(done, SendSettled(id, id in failing)) == 0
            && Tally(done, OnWire(id)) == (if id in failing then 0 else Tally(queue, id))
            && forall x: Output | !x.SendSettled? && !x.OnWire? :: Tally(done, x) == 0
  {
    if queue != [] {
      var n := |queue| - 1;
      FlushedTally(queue[..n], failing, id);
      var done := Flushed(queue[..n], failing);
      var (sent, ended) := (OnWire(queue[n]), SendSettled(queue[n], queue[n] !in failing));
      forall x: Output
        ensures Tally(Flushed(queue, failing), x) == Tally(done, x)
                  + (if x == ended then 1 else 0) + (if x == sent && queue[n] !in failing then 1 else 0)
      {
        if queue[n] in failing {
          TallySnoc(done, ended, x);
        } else {
          TallySnoc(done, sent, x);
          TallySnoc(done + [sent], ended, x);
          assert done + [sent, ended] == done + [sent] + [ended];
        }
      }
    }
  }

  lemma FlushQueueBalanced(l: Ledger, failing: set<nat>)
    requires Balanced(l)
    ensures Balanced(FlushQueue(l, failing))
  {
    var l' := FlushQueue(l, failing);
    forall id: nat
      ensures BalancedAt(l', id) && TimersAt(l', id)
    {
      assert BalancedAt(l, id) && TimersAt(l, id);
      FlushedTally(l.queue, failing, id);
      TallyIsMembership(l.queue, id);
      CountsAfter(l, l', Flushed(l.queue, failing), id);
    }
  }

  lemma {:induction false} SpliceTally(queue: seq<nat>, id: nat, k: nat)
    requires id in queue
    ensures Tally(Splice(queue, id), k) + (if k == id then 1 else 0) == Tally(queue, k)
  {
    var rest := queue[1..];
    assert queue == [queue[0]] + rest;
    TallyConcat([queue[0]], rest, k);
    if queue[0] != id {
      SpliceTally(rest, id, k);
      TallyConcat([queue[0]], Splice(rest, id), k);
    }
  }

  lemma TimeOutSendBalanced(l: Ledger, id: nat)
    requires Balanced(l) && SendTimer(id) in l.timers
    ensures Balanced(TimeOutSend(l, id))
  {
    var l' := TimeOutSend(l, id);
    assert TimersAt(l, id) && BalancedAt(l, id);
    forall k: nat
      ensures BalancedAt(l', k) && TimersAt(l', k)
    {
      assert BalancedAt(l, k) && TimersAt(l, k);
      SpliceTally(l.queue, id, k);
      TallyIsMembership(l.queue, k);
      TallyIsMembership(l'.queue, k);
    }
  }

  lemma StartProbeBalanced(l: Ledger, drives: bool)
    requires Balanced(l) && l.probe.None?
    ensures Balanced(StartProbe(l, drives))
  {
    var l' := StartProbe(l, drives);
    forall id: nat
      ensures BalancedAt(l', id) && TimersAt(l', id)
    {
      assert BalancedAt(l, id) && TimersAt(l, id);
    }
  }

  lemma SettleProbeBalanced(l: Ledger, ok: bool)
    requires Balanced(l)
    ensures Balanced(SettleProbe(l, ok))
  {
    var l' := SettleProbe(l, ok);
    forall id: nat
      ensures BalancedAt(l', id) && TimersAt(l', id)
    {
      assert BalancedAt(l, id) && TimersAt(l, id);
    }
  }

  lemma {:induction false} KeepNone(ws: seq<Waiter>, sel: set<nat>)
    requires Ids(ws) <= sel
    ensures Keep(ws, sel) == []
  {
    if ws != [] {
      var n := |ws| - 1;
      assert forall w | w in ws[..n] :: w in ws;
      KeepNone(ws[..n], sel);
    }
  }

  lemma RejectAllBalanced(l: Ledger)
    requires Balanced(l)
    ensures Balanced(RejectAll(l))
    ensures var l' := RejectAll(l); l'.waiters == [] && l'.queue == [] && l'.probe == None && l'.nextId == l.nextId
  {
    var l1 := SettleWaiters(l, Ids(l.waiters), false);
    SettleWaitersBalanced(l, Ids(l.waiters), false);
    KeepMembers(l.waiters, Ids(l.waiters));
    KeepNone(l.waiters, Ids(l.waiters));
    FlushQueueBalanced(l1, Elements(l1.queue));
    SettleProbeBalanced(RejectQueue(l1), false);
  }

  lemma RequestBalanced(l: Ledger, requestId: string, timed: bool, path: Path)
    requires Balanced(l)
    ensures Balanced(Request(l, requestId, timed, path))
  {
    var id := l.nextId;
    var waiting := AddWaiter(l, Some(requestId), timed);
    AddWaiterBalanced(l, Some(requestId), timed);
    assert BalancedAt(l, id);
    RecordCount(l, WaiterCreated(id), SendRequested(id));
    match path
    case Queued => EnqueueBalanced(waiting, id);
    case Direct(true) => SendNowBalanced(waiting, id, true);
    case _ =>
      SendNowBalanced(waiting, id, false);
      SettleWaitersBalanced(SendNow(waiting, id, false), {id}, false);
  }

  /** A request that could not be sent leaves no waiter behind. */
  lemma UnsentRequestLeavesNothing(l: Ledger, requestId: string, timed: bool, path: Path)
    requires Balanced(l) && (path == Refused || path == Direct(false))
    ensures Request(l, requestId, timed, path).waiters == l.waiters
    ensures Request(l, requestId, timed, path).queue == l.queue
  {
    var id := l.nextId;
    var ws := l.waiters + [Waiter(id, Some(requestId), timed)];
    assert ws[..|ws| - 1] == l.waiters;
    forall w | w in l.waiters
      ensures w.id != id
    {
      assert BalancedAt(l, id);
      LiveCountIsMembership(l.waiters, id);
    }
    KeepAll(l.waiters, {id});
    assert l.waiters + [] == l.waiters;
  }

  lemma {:induction false} KeepAll(ws: seq<Waiter>, sel: set<nat>)
    requires forall w | w in ws :: w.id !in sel
    ensures Keep(ws, sel) == ws
  {
    if ws != [] {
      KeepAll(ws[..|ws| - 1], sel);
    }
  }

  lemma {:induction false} AddWaitersShape(l: Ledger, timed: seq<bool>)
    ensures var l' := AddWaiters(l, timed);
            && l'.queue == l.queue && l'.probe == l.probe && l'.restored == l.restored
            && l'.nextId == l.nextId + |timed|
            && |l'.waiters| == |l.waiters| + |timed| && l'.waiters[..|l.waiters|] == l.waiters
            && forall i | |l.waiters| <= i < |l'.waiters| :: l'.waiters[i].id == l.nextId + (i - |l.waiters|)
    ensures Balanced(l) ==> Balanced(AddWaiters(l, timed))
  {
    if timed != [] {
      var n := |timed| - 1;
      var before := AddWaiters(l, timed[..n]);
      AddWaitersShape(l, timed[..n]);
      if Balanced(before) { AddWaiterBalanced(before, None, timed[n]); }
      hide Balanced;
    }
  }

  /** Where exactly a tail of the waiters is selected, keeping the others keeps the rest. */
  lemma {:induction false} KeepFront(ws: seq<Waiter>, n: nat, sel: set<nat>)
    requires n <= |ws|
    requires forall i | 0 <= i < |ws| :: ws[i].id in sel <==> n <= i
    ensures Keep(ws, sel) == ws[..n]
  {
    if n == |ws| {
      KeepAll(ws, sel);
    } else {
      KeepFront(ws[..|ws| - 1], n, sel);
    }
  }

  /** A dictation call keeps the books, and one that could not send leaves nothing behind. */
  lemma DictateBalanced(l: Ledger, timed: seq<bool>, sent: bool)
    ensures Balanced(l) ==> Balanced(Dictate(l, timed, sent))
    ensures Dictate(l, timed, sent).queue == l.queue && Dictate(l, timed, sent).probe == l.probe
    ensures Dictate(l, timed, sent).restored == l.restored && Dictate(l, timed, sent).nextId == l.nextId + |timed|
    ensures !sent && (Balanced(l) || l.waiters == []) ==> Dictate(l, timed, sent).waiters == l.waiters
  {
    var waiting := AddWaiters(l, timed);
    var ids := Numbers(l.nextId, |timed|);
    AddWaitersShape(l, timed);
    CancelEachKeeps(waiting, ids);
    if Balanced(l) || l.waiters == [] {
      forall i | 0 <= i < |waiting.waiters| ensures waiting.waiters[i].id in Elements(ids) <==> |l.waiters| <= i {
        if i < |l.waiters| {
          assert waiting.waiters[..|l.waiters|][i] == l.waiters[i];
          WaiterIsOld(l, i);
        } else {
          assert ids[i - |l.waiters|] == waiting.waiters[i].id;
        }
      }
      KeepFront(waiting.waiters, |l.waiters|, Elements(ids));
    }
    hide Balanced, KeepsOrder, Keep, CancelEach, AddWaiters;
  }

  lemma WaiterIsOld(l: Ledger, i: nat)
    requires Balanced(l) && i < |l.waiters|
    ensures l.waiters[i].id < l.nextId
  {
    assert BalancedAt(l, l.waiters[i].id);
    LiveCountIsMembership(l.waiters, l.waiters[i].id);
    InIds(l.waiters, i);
  }

  /** Which requests were resubscriptions is not in the books. */
  lemma RestoredBalanced(l: Ledger, restored: set<nat>)
    requires Balanced(l)
    ensures Balanced(l.(restored := restored))
  {
    forall id: nat
      ensures BalancedAt(l.(restored := restored), id) && TimersAt(l.(restored := restored), id)
    {
      assert BalancedAt(l, id) && TimersAt(l, id);
    }
  }

  lemma {:induction false} ResubscribeEachBalanced(l: Ledger, rs: seq<Resubscription>, open: bool)
    requires Balanced(l)
    ensures Balanced(ResubscribeEach(l, rs, open))
  {
    if rs != [] {
      var n := |rs| - 1;
      var r := rs[n];
      ResubscribeEachBalanced(l, rs[..n], open);
      var before := ResubscribeEach(l, rs[..n], open);
      RequestBalanced(before, r.requestId, r.timed, ResubscribePath(r, open));
      var after := Request(before, r.requestId, r.timed, ResubscribePath(r, open));
      RestoredBalanced(after, before.restored + {before.nextId});
      hide Balanced, Request;
    }
  }

  // ----- Order on the wire -----

  /** The requests put on the wire, oldest first. */
  function WireIds(log: seq<Output>): seq<nat>
  {
    if log == [] then []
    else
      var n := |log| - 1;
      WireIds(log[..n]) + (if log[n].OnWire? then [log[n].id] else [])
  }

  /** In increasing order, but for pairs of which one is in `loose` and the other is not. */
  predicate Ordered(ids: seq<nat>, loose: set<nat>) {
    forall i, j | 0 <= i < j < |ids| :: (ids[i] in loose <==> ids[j] in loose) ==> ids[i] < ids[j]
  }

  predicate InOrderUpTo(l: Ledger, loose: set<nat>) {
    && Ordered(WireIds(l.log) + l.queue, loose)
    && forall id | id in WireIds(l.log) + l.queue :: id < l.nextId
  }

  /** Requests go on the wire in the order in which they were made, the queued ones next. */
  predicate InOrder(l: Ledger) {
    InOrderUpTo(l, {})
  }

  /** So do the requests the callers made among themselves, and the resubscriptions among themselves. */
  predicate EachInOrder(l: Ledger) {
    && InOrderUpTo(l, l.restored)
    && (forall id | id in l.queue :: id !in l.restored)
    && (forall id | id in l.restored :: id < l.nextId)
  }

  predicate KeepsOrder(l: Ledger, l': Ledger) {
    (InOrder(l) ==> InOrder(l')) && (EachInOrder(l) ==> EachInOrder(l'))
  }

  lemma OrderKeptTwice(l: Ledger, l': Ledger, l'': Ledger)
    requires KeepsOrder(l, l') && KeepsOrder(l', l'')
    ensures KeepsOrder(l, l'')
  {
    hide InOrder, EachInOrder;
  }

  /** What keeps the order for both sets of loose pairs keeps it. */
  lemma BothKept(l: Ledger, l': Ledger)
    requires InOrderUpTo(l, {}) ==> InOrderUpTo(l', {})
    requires InOrderUpTo(l, l.restored) ==> InOrderUpTo(l', l.restored)
    requires l'.restored == l.restored && l'.nextId >= l.nextId
    requires forall id | id in l'.queue :: id in l.queue || id >= l.nextId
    ensures KeepsOrder(l, l')
  {
    hide InOrderUpTo;
  }

  lemma {:induction false} WireIdsConcat(a: seq<Output>, b: seq<Output>)
    ensures WireIds(a + b) == WireIds(a) + WireIds(b)
  {
    if b == [] {
      assert a + b == a;
    } else {
      var n := |b| - 1;
      WireIdsConcat(a, b[..n]);
      assert (a + b)[..|a| + n] == a + b[..n];
    }
  }

  lemma WireIdsOne(x: Output)
    ensures WireIds([x]) == if x.OnWire? then [x.id] else []
  {
    assert [x][..0] == [];
  }

  lemma {:induction false} SettlementsOffWire(ws: seq<Waiter>, sel: set<nat>, ok: bool)
    ensures WireIds(Settlements(ws, sel, ok)) == []
  {
    if ws != [] {
      var n := |ws| - 1;
      SettlementsOffWire(ws[..n], sel, ok);
      WireIdsConcat(Settlements(ws[..n], sel, ok), if ws[n].id in sel then [WaiterSettled(ws[n].id, ok)] else []);
    }
  }

  /** The queue without the failing sends, in order. */
  function Successful(queue: seq<nat>, failing: set<nat>): seq<nat>
  {
    if queue == [] then []
    else
      var n := |queue| - 1;
      Successful(queue[..n], failing) + (if queue[n] in failing then [] else [queue[n]])
  }

  /** A flush puts on the wire exactly the queued messages that do not fail, in queue order. */
  lemma {:induction false} FlushKeepsOrder(queue: seq<nat>, failing: set<nat>)
    ensures WireIds(Flushed(queue, failing)) == Successful(queue, failing)
  {
    if queue != [] {
      var n := |queue| - 1;
      FlushKeepsOrder(queue[..n], failing);
      var more := if queue[n] in failing then [SendSettled(queue[n], false)]
                  else [OnWire(queue[n]), SendSettled(queue[n], true)];
      WireIdsConcat(Flushed(queue[..n], failing), more);
      FlushedOne(queue[n], queue[n] in failing);
      hide WireIds;
    }
  }

  lemma FlushedOne(id: nat, fails: bool)
    ensures WireIds(if fails then [SendSettled(id, false)] else [OnWire(id), SendSettled(id, true)])
            == if fails then [] else [id]
  {
    WireIdsOne(SendSettled(id, !fails));
    WireIdsOne(OnWire(id));
    WireIdsConcat([OnWire(id)], [SendSettled(id, true)]);
    assert [OnWire(id)] + [SendSettled(id, true)] == [OnWire(id), SendSettled(id, true)];
  }

  lemma {:induction false} SuccessfulInOrder(before: seq<nat>, queue: seq<nat>, failing: set<nat>, loose: set<nat>)
    requires Ordered(before + queue, loose)
    ensures Ordered(before + Successful(queue, failing), loose)
    ensures forall id | id in Successful(queue, failing) :: id in queue && id !in failing
    ensures forall id | id in queue && id !in failing :: id in Successful(queue, failing)
  {
    if queue == [] {
      assert before + Successful(queue, failing) == before + queue;
    } else {
      var n := |queue| - 1;
      var (init, last) := (queue[..n], queue[n]);
      var all := before + queue;
      assert all[..|all| - 1] == before + init && all[|all| - 1] == last;
      assert Ordered(all[..|all| - 1], loose);
      SuccessfulInOrder(before, init, failing, loose);
      var sent := before + Successful(init, failing);
      forall id | id in sent && (id in loose <==> last in loose)
        ensures id < last
      {
        assert id in before + init;
        var k :| 0 <= k < |before + init| && (before + init)[k] == id;
        assert all[k] == id;
      }
      OrderedSnoc(sent, last, loose);
      assert sent + [last] == before + (Successful(init, failing) + [last]);
      assert Successful(init, failing) + [] == Successful(init, failing);
      assert forall id :: id in queue <==> id in init || id == last;
    }
  }

  lemma OrderedSnoc(s: seq<nat>, last: nat, loose: set<nat>)
    requires Ordered(s, loose) && forall id | id in s && (id in loose <==> last in loose) :: id < last
    ensures Ordered(s + [last], loose)
  {
    forall i, j | 0 <= i < j < |s + [last]|
      ensures ((s + [last])[i] in loose <==> (s + [last])[j] in loose) ==> (s + [last])[i] < (s + [last])[j]
    {
      assert s[i] in s;
    }
  }

  lemma SameWireInOrder(l: Ledger, l': Ledger, more: seq<Output>, loose: set<nat>)
    requires InOrderUpTo(l, loose) && l'.log == l.log + more && WireIds(more) == []
    requires l'.queue == l.queue && l'.nextId >= l.nextId
    ensures InOrderUpTo(l', loose)
  {
    WireIdsConcat(l.log, more);
    assert WireIds(l.log) + [] == WireIds(l.log);
  }

  /** Nothing new on the wire or in the queue: the order is kept. */
  lemma SameWireKeepsOrder(l: Ledger, l': Ledger, more: seq<Output>)
    requires l'.log == l.log + more && WireIds(more) == []
    requires l'.queue == l.queue && l'.nextId >= l.nextId && l'.restored == l.restored
    ensures KeepsOrder(l, l')
  {
    if InOrderUpTo(l, {}) { SameWireInOrder(l, l', more, {}); }
    if InOrderUpTo(l, l.restored) { SameWireInOrder(l, l', more, l.restored); }
    hide InOrderUpTo;
    BothKept(l, l');
  }

  lemma SettleWaitersKeepsOrder(l: Ledger, sel: set<nat>, ok: bool)
    ensures KeepsOrder(l, SettleWaiters(l, sel, ok))
  {
    SettlementsOffWire(l.waiters, sel, ok);
    SameWireKeepsOrder(l, SettleWaiters(l, sel, ok), Settlements(l.waiters, sel, ok));
  }

  lemma StartProbeKeepsOrder(l: Ledger, drives: bool)
    ensures KeepsOrder(l, StartProbe(l, drives))
  {
    WireIdsOne(ProbeStarted(l.nextId));
    SameWireKeepsOrder(l, StartProbe(l, drives), [ProbeStarted(l.nextId)]);
  }

  lemma SettleProbeKeepsOrder(l: Ledger, ok: bool)
    ensures KeepsOrder(l, SettleProbe(l, ok))
  {
    if l.probe.Some? {
      WireIdsOne(ProbeSettled(l.probe.value.id, ok));
      SameWireKeepsOrder(l, SettleProbe(l, ok), [ProbeSettled(l.probe.value.id, ok)]);
    }
  }

  lemma FlushInOrder(l: Ledger, failing: set<nat>, loose: set<nat>)
    requires InOrderUpTo(l, loose)
    ensures InOrderUpTo(FlushQueue(l, failing), loose)
  {
    var wire := WireIds(l.log);
    WireIdsConcat(l.log, Flushed(l.queue, failing));
    FlushKeepsOrder(l.queue, failing);
    SuccessfulInOrder(wire, l.queue, failing, loose);
    var after := wire + Successful(l.queue, failing);
    assert after + [] == after;
    assert forall id | id in after :: id in wire + l.queue;
  }

  lemma FlushKeepsLedgerOrder(l: Ledger, failing: set<nat>)
    ensures KeepsOrder(l, FlushQueue(l, failing))
  {
    if InOrderUpTo(l, {}) { FlushInOrder(l, failing, {}); }
    if InOrderUpTo(l, l.restored) { FlushInOrder(l, failing, l.restored); }
    hide InOrderUpTo;
    BothKept(l, FlushQueue(l, failing));
  }

  lemma WithoutOne(before: seq<nat>, x: nat, rest: seq<nat>, loose: set<nat>)
    requires Ordered(before + [x] + rest, loose)
    ensures Ordered(before + rest, loose)
  {
    var (all, cut) := (before + [x] + rest, before + rest);
    forall i, j | 0 <= i < j < |cut|
      ensures (cut[i] in loose <==> cut[j] in loose) ==> cut[i] < cut[j]
    {
      assert cut[i] == all[if i < |before| then i else i + 1];
      assert cut[j] == all[if j < |before| then j else j + 1];
    }
  }

  lemma SpliceInOrder(before: seq<nat>, queue: seq<nat>, id: nat, loose: set<nat>)
    requires Ordered(before + queue, loose)
    ensures Ordered(before + Splice(queue, id), loose)
  {
    var k := 0;
    while k < |queue| && queue[k] != id
      invariant k <= |queue| && forall j | 0 <= j < k :: queue[j] != id
    {
      k := k + 1;
    }
    SpliceAt(queue, id, k);
    hide Ordered, Splice;
    if k < |queue| {
      assert before + queue == before + queue[..k] + [id] + queue[k + 1..];
      WithoutOne(before + queue[..k], id, queue[k + 1..], loose);
      Regroup(before, queue[..k], queue[k + 1..]);
    }
  }

  lemma {:induction false} SpliceMembers(queue: seq<nat>, id: nat)
    ensures forall k | k in Splice(queue, id) :: k in queue
  {
    if queue != [] && queue[0] != id {
      SpliceMembers(queue[1..], id);
    }
  }

  lemma TimeOutSendInOrder(l: Ledger, id: nat, loose: set<nat>)
    requires InOrderUpTo(l, loose)
    ensures InOrderUpTo(TimeOutSend(l, id), loose)
  {
    WireIdsConcat(l.log, [SendSettled(id, false)]);
    WireIdsOne(SendSettled(id, false));
    assert WireIds(l.log) + [] == WireIds(l.log);
    SpliceInOrder(WireIds(l.log), l.queue, id, loose);
    SpliceMembers(l.queue, id);
    assert forall k | k in WireIds(l.log) + Splice(l.queue, id) :: k in WireIds(l.log) + l.queue;
  }

  lemma TimeOutSendKeepsOrder(l: Ledger, id: nat)
    ensures KeepsOrder(l, TimeOutSend(l, id))
  {
    if InOrderUpTo(l, {}) { TimeOutSendInOrder(l, id, {}); }
    if InOrderUpTo(l, l.restored) { TimeOutSendInOrder(l, id, l.restored); }
    SpliceMembers(l.queue, id);
    hide InOrderUpTo;
    BothKept(l, TimeOutSend(l, id));
  }

  lemma RejectAllKeepsOrder(l: Ledger)
    ensures KeepsOrder(l, RejectAll(l))
  {
    var l1 := SettleWaiters(l, Ids(l.waiters), false);
    var l2 := RejectQueue(l1);
    SettleWaitersKeepsOrder(l, Ids(l.waiters), false);
    FlushKeepsLedgerOrder(l1, Elements(l1.queue));
    SettleProbeKeepsOrder(l2, false);
    hide KeepsOrder, SettleWaiters, FlushQueue, SettleProbe;
    OrderKeptTwice(l, l1, l2);
    OrderKeptTwice(l, l2, RejectAll(l));
  }

  lemma AddWaiterKeepsOrder(l: Ledger, requestId: Option<string>, timed: bool)
    ensures KeepsOrder(l, AddWaiter(l, requestId, timed))
  {
    WireIdsOne(WaiterCreated(l.nextId));
    SameWireKeepsOrder(l, AddWaiter(l, requestId, timed), [WaiterCreated(l.nextId)]);
  }

  lemma {:induction false} AddWaitersKeepsOrder(l: Ledger, timed: seq<bool>)
    ensures KeepsOrder(l, AddWaiters(l, timed))
  {
    if timed != [] {
      var n := |timed| - 1;
      AddWaitersKeepsOrder(l, timed[..n]);
      AddWaiterKeepsOrder(AddWaiters(l, timed[..n]), None, timed[n]);
      hide KeepsOrder, AddWaiter;
      OrderKeptTwice(l, AddWaiters(l, timed[..n]), AddWaiters(l, timed));
    }
  }

  lemma DictateKeepsOrder(l: Ledger, timed: seq<bool>, sent: bool)
    ensures KeepsOrder(l, Dictate(l, timed, sent))
  {
    var waiting := AddWaiters(l, timed);
    AddWaitersKeepsOrder(l, timed);
    CancelEachKeeps(waiting, Numbers(l.nextId, |timed|));
    hide KeepsOrder, AddWaiters, CancelEach;
    OrderKeptTwice(l, waiting, CancelEach(waiting, Numbers(l.nextId, |timed|)));
  }

  lemma WireIdsSnoc(log: seq<Output>, x: Output)
    ensures WireIds(log + [x]) == if x.OnWire? then WireIds(log) + [x.id] else WireIds(log)
  {
    assert (log + [x])[..|log|] == log;
  }

  lemma SendNowWire(l: Ledger, id: nat, ok: bool)
    ensures WireIds(SendNow(l, id, ok).log) == if ok then WireIds(l.log) + [id] else WireIds(l.log)
  {
    var asked := Record(l, SendRequested(id));
    WireIdsSnoc(l.log, SendRequested(id));
    if ok {
      WireIdsSnoc(asked.log, OnWire(id));
      WireIdsSnoc(Record(asked, OnWire(id)).log, SendSettled(id, true));
    } else {
      WireIdsSnoc(asked.log, SendSettled(id, false));
    }
    hide WireIds;
  }

  /** Settling waiters leaves all but the waiters and their timers. */
  lemma SettleWaitersWire(l: Ledger, sel: set<nat>, ok: bool)
    ensures var l' := SettleWaiters(l, sel, ok);
            && WireIds(l'.log) == WireIds(l.log) && l'.queue == l.queue
            && l'.nextId == l.nextId && l'.probe == l.probe && l'.restored == l.restored
  {
    SettlementsOffWire(l.waiters, sel, ok);
    WireIdsConcat(l.log, Settlements(l.waiters, sel, ok));
    hide WireIds, Settlements, Keep, TimersOf;
  }

  /** What a request does to the wire, the queue and the rest. */
  lemma RequestWire(l: Ledger, requestId: string, timed: bool, path: Path)
    ensures var l' := Request(l, requestId, timed, path);
            && WireIds(l'.log) == (if path == Direct(true) then WireIds(l.log) + [l.nextId] else WireIds(l.log))
            && l'.queue == (if path.Queued? then l.queue + [l.nextId] else l.queue)
            && l'.nextId == l.nextId + 1 && l'.probe == l.probe && l'.restored == l.restored
  {
    var id := l.nextId;
    var waiting := AddWaiter(l, Some(requestId), timed);
    WireIdsSnoc(l.log, WaiterCreated(id));
    WireIdsSnoc(waiting.log, SendRequested(id));
    SendNowWire(waiting, id, path == Direct(true));
    SettleWaitersWire(SendNow(waiting, id, false), {id}, false);
    hide WireIds, SettleWaiters;
  }

  /** A request keeps the order, unless it goes out directly past a queue whose pairs with it are strict. */
  lemma RequestInOrder(l: Ledger, requestId: string, timed: bool, path: Path, loose: set<nat>)
    requires InOrderUpTo(l, loose)
    requires path == Direct(true) && l.queue != [] ==> l.nextId in loose && forall id | id in l.queue :: id !in loose
    ensures InOrderUpTo(Request(l, requestId, timed, path), loose)
  {
    var id := l.nextId;
    var (wire, queue) := (WireIds(l.log), l.queue);
    RequestWire(l, requestId, timed, path);
    hide WireIds, Request;
    if path.Queued? {
      OrderedSnoc(wire + queue, id, loose);
      assert wire + queue + [id] == wire + (queue + [id]);
    } else if path == Direct(true) {
      var (was, now) := (wire + queue, wire + [id] + queue);
      forall i, j | 0 <= i < j < |now|
        ensures (now[i] in loose <==> now[j] in loose) ==> now[i] < now[j]
      {
        if i != |wire| && j != |wire| {
          assert now[i] == was[if i < |wire| then i else i - 1];
          assert now[j] == was[if j < |wire| then j else j - 1];
        } else if j == |wire| {
          assert now[i] == was[i] && was[i] in was;
        } else {
          assert now[j] == queue[j - |wire| - 1] && now[j] in queue;
        }
      }
      assert forall k | k in now :: k in was || k == id;
    }
  }

  lemma RequestKeepsOrder(l: Ledger, requestId: string, timed: bool, path: Path)
    requires path == Direct(true) ==> l.queue == []
    ensures KeepsOrder(l, Request(l, requestId, timed, path))
  {
    if InOrderUpTo(l, {}) { RequestInOrder(l, requestId, timed, path, {}); }
    if InOrderUpTo(l, l.restored) { RequestInOrder(l, requestId, timed, path, l.restored); }
    RequestWire(l, requestId, timed, path);
    hide InOrderUpTo, Request, WireIds;
    BothKept(l, Request(l, requestId, timed, path));
  }

  // ----- Resubscriptions and the order -----

  /** A resubscription keeps the order among resubscriptions and among the others. */
  lemma ResubscribeInOrder(l: Ledger, r: Resubscription, open: bool)
    requires EachInOrder(l)
    ensures EachInOrder(Resubscribe(l, r, open))
  {
    hide WireIds, Request, Ordered, InOrderUpTo;
    var (path, loose) := (ResubscribePath(r, open), l.restored + {l.nextId});
    ResubscribeOne(l, r, open);
    NewIsLoose(l);
    RequestInOrder(l, r.requestId, r.timed, path, loose);
    RestoredInOrder(Request(l, r.requestId, r.timed, path), loose);
    assert Resubscribe(l, r, open) == Request(l, r.requestId, r.timed, path).(restored := loose);
  }

  lemma RestoredInOrder(l: Ledger, restored: set<nat>)
    requires InOrderUpTo(l, restored)
    ensures InOrderUpTo(l.(restored := restored), restored)
  {
  }

  lemma ResubscribeOne(l: Ledger, r: Resubscription, open: bool)
    ensures var l' := Resubscribe(l, r, open);
            && l'.queue == l.queue && l'.probe == l.probe && l'.nextId == l.nextId + 1
            && l'.restored == l.restored + {l.nextId}
            && WireIds(l'.log) == (if open && !r.sendThrows then WireIds(l.log) + [l.nextId] else WireIds(l.log))
  {
    RequestWire(l, r.requestId, r.timed, ResubscribePath(r, open));
    hide WireIds, Request;
  }

  lemma NewIsLoose(l: Ledger)
    requires EachInOrder(l)
    ensures InOrderUpTo(l, l.restored + {l.nextId}) && forall id | id in l.queue :: id !in l.restored + {l.nextId}
  {
    var ids := WireIds(l.log) + l.queue;
    QueueIsOld(l);
    assert forall i | 0 <= i < |ids| :: ids[i] in ids;
    hide WireIds;
  }

  lemma QueueIsOld(l: Ledger)
    requires EachInOrder(l)
    ensures forall id | id in l.queue :: id < l.nextId
  {
    assert forall id | id in l.queue :: id in WireIds(l.log) + l.queue;
  }

  /** Some resubscription goes out. */
  predicate AnySent(rs: seq<Resubscription>, open: bool) {
    open && exists i | 0 <= i < |rs| :: !rs[i].sendThrows
  }

  /** The numbers of the resubscriptions that go out, the first of them being `first`. */
  function Sent(first: nat, rs: seq<Resubscription>, open: bool): seq<nat>
  {
    if rs == [] then []
    else
      var n := |rs| - 1;
      Sent(first, rs[..n], open) + (if open && !rs[n].sendThrows then [first + n] else [])
  }

  lemma {:induction false} SentIsOrdered(first: nat, rs: seq<Resubscription>, open: bool)
    ensures var s := Sent(first, rs, open);
            && (s == [] <==> !AnySent(rs, open))
            && (forall i | 0 <= i < |s| :: first <= s[i] < first + |rs|)
            && (forall i, j | 0 <= i < j < |s| :: s[i] < s[j])
  {
    if rs != [] {
      var n := |rs| - 1;
      SentIsOrdered(first, rs[..n], open);
      assert rs == rs[..n] + [rs[n]];
      assert AnySent(rs, open) <==> AnySent(rs[..n], open) || (open && !rs[n].sendThrows);
      hide AnySent;
    }
  }

  lemma SentSnoc(first: nat, rs: seq<Resubscription>, open: bool)
    requires rs != []
    ensures var n := |rs| - 1;
            Sent(first, rs, open) ==
            if open && !rs[n].sendThrows then Sent(first, rs[..n], open) + [first + n] else Sent(first, rs[..n], open)
  {
    var s := Sent(first, rs[..|rs| - 1], open);
    assert s + [] == s;
  }

  lemma {:induction false} ResubscribeWire(l: Ledger, rs: seq<Resubscription>, open: bool)
    ensures var l' := ResubscribeEach(l, rs, open);
            && l'.queue == l.queue && l'.probe == l.probe && l'.nextId == l.nextId + |rs|
            && WireIds(l'.log) == WireIds(l.log) + Sent(l.nextId, rs, open)
  {
    hide WireIds, Resubscribe;
    if rs == [] {
      assert WireIds(l.log) + [] == WireIds(l.log);
    } else {
      var n := |rs| - 1;
      ResubscribeWire(l, rs[..n], open);
      ResubscribeOne(ResubscribeEach(l, rs[..n], open), rs[n], open);
      SentSnoc(l.nextId, rs, open);
      hide Sent;
      Regroup(WireIds(l.log), Sent(l.nextId, rs[..n], open), [l.nextId + n]);
    }
  }

  lemma Regroup(a: seq<nat>, b: seq<nat>, c: seq<nat>)
    ensures a + b + c == a + (b + c)
  {
  }

  /** Resubscribing keeps the order among resubscriptions and among the others. */
  lemma {:induction false} ResubscribeEachInOrder(l: Ledger, rs: seq<Resubscription>, open: bool)
    requires EachInOrder(l)
    ensures EachInOrder(ResubscribeEach(l, rs, open))
  {
    if rs != [] {
      var n := |rs| - 1;
      ResubscribeEachInOrder(l, rs[..n], open);
      ResubscribeInOrder(ResubscribeEach(l, rs[..n], open), rs[n], open);
      hide EachInOrder, Resubscribe;
    }
  }

  /** A flush after resubscribing keeps the order of all requests exactly when no resubscription went
      out or no queued message does. */
  lemma FlushedInOrderIff(l: Ledger, rs: seq<Resubscription>, open: bool, lost: set<nat>)
    requires InOrder(l)
    ensures InOrder(FlushQueue(ResubscribeEach(l, rs, open), lost))
            <==> !AnySent(rs, open) || forall id | id in l.queue :: id in lost
  {
    var (wire, sent, flushed) := (WireIds(l.log), Sent(l.nextId, rs, open), Successful(l.queue, lost));
    SentIsOrdered(l.nextId, rs, open);
    SuccessfulInOrder(wire, l.queue, lost, {});
    assert forall id | id in wire + flushed :: id in wire + l.queue;
    assert flushed != [] ==> flushed[0] in flushed;
    FlushedWire(l, rs, open, lost);
    hide WireIds, Sent, Successful, ResubscribeEach, AnySent, FlushQueue, Ordered;
    InOrderThrough(wire, sent, flushed, l.nextId);
    NewOnes(wire, sent, flushed, l.nextId, l.nextId + |rs|);
    WireOnly(FlushQueue(ResubscribeEach(l, rs, open), lost));
  }

  /** So does what an error while resubscribing leaves behind, for the queue as it stands. */
  lemma LeftInOrderIff(l: Ledger, rs: seq<Resubscription>, open: bool)
    requires InOrder(l)
    ensures InOrder(ResubscribeEach(l, rs, open)) <==> !AnySent(rs, open) || l.queue == []
  {
    var (wire, sent) := (WireIds(l.log), Sent(l.nextId, rs, open));
    SentIsOrdered(l.nextId, rs, open);
    ResubscribeWire(l, rs, open);
    hide WireIds, Sent, ResubscribeEach, AnySent, Ordered;
    InOrderThrough(wire, sent, l.queue, l.nextId);
    NewOnes(wire, sent, l.queue, l.nextId, l.nextId + |rs|);
  }

  lemma WireOnly(l: Ledger)
    requires l.queue == [] && forall id | id in WireIds(l.log) :: id < l.nextId
    ensures InOrder(l) <==> Ordered(WireIds(l.log), {})
  {
    assert WireIds(l.log) + [] == WireIds(l.log);
  }

  lemma FlushedWire(l: Ledger, rs: seq<Resubscription>, open: bool, lost: set<nat>)
    ensures var done := FlushQueue(ResubscribeEach(l, rs, open), lost);
            && WireIds(done.log) == WireIds(l.log) + Sent(l.nextId, rs, open) + Successful(l.queue, lost)
            && done.queue == [] && done.nextId == l.nextId + |rs|
  {
    ResubscribeWire(l, rs, open);
    WireIdsConcat(ResubscribeEach(l, rs, open).log, Flushed(l.queue, lost));
    FlushKeepsOrder(l.queue, lost);
    hide WireIds, Sent, Successful, ResubscribeEach, Flushed;
  }

  lemma NewOnes(wire: seq<nat>, sent: seq<nat>, flushed: seq<nat>, first: nat, next: nat)
    requires first <= next
    requires (forall id | id in wire + flushed :: id < first) && forall i | 0 <= i < |sent| :: sent[i] < next
    ensures forall id | id in wire + sent + flushed :: id < next
  {
    forall id | id in wire + sent + flushed ensures id < next {
      assert id in wire + flushed || id in sent;
    }
  }

  /** New numbers between old ones are in order exactly when there are none, or no old ones after them. */
  lemma InOrderThrough(wire: seq<nat>, sent: seq<nat>, flushed: seq<nat>, first: nat)
    requires Ordered(wire + flushed, {})
    requires forall id | id in wire + flushed :: id < first
    requires (forall i | 0 <= i < |sent| :: first <= sent[i]) && forall i, j | 0 <= i < j < |sent| :: sent[i] < sent[j]
    ensures Ordered(wire + sent + flushed, {}) <==> sent == [] || flushed == []
  {
    var (was, now) := (wire + flushed, wire + sent + flushed);
    if sent == [] {
      assert now == was;
    } else if flushed == [] {
      assert was == wire && now == wire + sent;
      forall i, j | 0 <= i < j < |now| ensures now[i] < now[j] {
        if i < |wire| {
          assert was[i] in was;
          assert j < |wire| ==> was[i] < was[j];
        }
      }
    } else {
      assert flushed[0] in was;
      assert now[|wire|] == sent[0] && now[|wire| + |sent|] == flushed[0];
    }
  }
}
