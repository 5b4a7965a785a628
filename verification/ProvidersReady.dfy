/** Waiting until no provider is loading: the first snapshot races with updates and a timeout. */
module ProvidersReady {
  import opened Options

  datatype Entry = Entry(provider: string, status: string)

  datatype Update = Update(cwd: Option<string>, entries: seq<Entry>)

  datatype Snapshot = Snapshot(requestId: string, update: Update)

  datatype Outcome = Resolved(snapshot: Snapshot) | Rejected(message: string)

  datatype Event =
    | Updated(update: Update)
    | Replied(snapshot: Snapshot)
    | Failed(message: string)
    | TimedOut

  predicate Ready(entries: seq<Entry>) {
    forall i | 0 <= i < |entries| :: entries[i].status != "loading"
  }

  /** The names of the loading providers, separated by a comma and a space. */
  function LoadingNames(entries: seq<Entry>): string
  {
    if entries == [] then ""
    else
      var last := entries[|entries| - 1];
      var before := LoadingNames(entries[..|entries| - 1]);
      if last.status != "loading" then before
      else if Ready(entries[..|entries| - 1]) then last.provider
      else before + ", " + last.provider
  }

  function TimeoutMessage(entries: seq<Entry>): string {
    var loading := LoadingNames(entries);
    if loading != "" then "Timed out waiting for providers: " + loading
    else "Timed out waiting for provider discovery"
  }

  /** Ready means that no entry is loading. */
  lemma ReadyIff(entries: seq<Entry>)
    ensures Ready(entries) <==> forall e | e in entries :: e.status != "loading"
  {
  }

  /** The providers of the loading entries, in order. */
  function Loading(entries: seq<Entry>): seq<string>
  {
    if entries == [] then []
    else (if entries[0].status == "loading" then [entries[0].provider] else []) + Loading(entries[1..])
  }

  function Listed(names: seq<string>): string
  {
    if names == [] then "" else if |names| == 1 then names[0] else names[0] + ", " + Listed(names[1..])
  }

  lemma {:induction false} ListedSnoc(names: seq<string>, last: string)
    ensures Listed(names + [last]) == if names == [] then last else Listed(names) + ", " + last
  {
    if |names| > 1 {
      ListedSnoc(names[1..], last);
      assert (names + [last])[1..] == names[1..] + [last];
    } else if names != [] {
      assert (names + [last])[1..] == [last];
    }
  }

  lemma {:induction false} LoadingSnoc(entries: seq<Entry>, e: Entry)
    ensures Loading(entries + [e]) == Loading(entries) + if e.status == "loading" then [e.provider] else []
    ensures Loading(entries) == [] <==> Ready(entries)
  {
    if entries == [] {
      assert [e][1..] == [];
    } else {
      LoadingSnoc(entries[1..], e);
      assert (entries + [e])[1..] == entries[1..] + [e];
      assert entries == [entries[0]] + entries[1..];
    }
  }

  lemma {:induction false} LoadingNamesAre(entries: seq<Entry>)
    ensures LoadingNames(entries) == Listed(Loading(entries))
  {
    if entries != [] {
      var (before, last) := (entries[..|entries| - 1], entries[|entries| - 1]);
      LoadingNamesAre(before);
      LoadingSnoc(before, last);
      ListedSnoc(Loading(before), last.provider);
      assert entries == before + [last];
      assert Loading(before) + [] == Loading(before);
    }
  }

  // ----- The variables of the wait -----

  datatype Wait = Wait(settled: bool, requestId: Option<string>, snapshotCwd: Option<string>,
                       pendingUpdates: map<Option<string>, Update>, latestEntries: seq<Entry>,
                       subscribed: bool, timeoutArmed: bool, awaitingReply: bool, settlements: seq<Outcome>)

  const STARTED := Wait(false, None, None, map[], [], true, true, true, [])

  function Settle(w: Wait, o: Outcome): Wait {
    if w.settled then w
    else w.(settled := true, subscribed := false, timeoutArmed := false, settlements := w.settlements + [o])
  }

  /** No request id yet: the empty string does not count as one. */
  predicate NoRequestId(w: Wait) {
    w.requestId.None? || w.requestId.value == ""
  }

  function OnUpdate(w: Wait, u: Update): Wait {
    if NoRequestId(w) then w.(pendingUpdates := w.pendingUpdates[u.cwd := u])
    else if u.cwd != w.snapshotCwd then w
    else
      var seen := w.(latestEntries := u.entries);
      if Ready(u.entries) then Settle(seen, Resolved(Snapshot(w.requestId.value, u))) else seen
  }

  function OnReply(w: Wait, s: Snapshot): Wait {
    var cwd := s.update.cwd;
    var known := w.(requestId := Some(s.requestId), snapshotCwd := cwd, latestEntries := s.update.entries,
                    awaitingReply := false);
    if Ready(s.update.entries) then Settle(known, Resolved(s))
    else if cwd in w.pendingUpdates && Ready(w.pendingUpdates[cwd].entries) then
      Settle(known, Resolved(Snapshot(s.requestId, w.pendingUpdates[cwd])))
    else known
  }

  /** Events reach the wait only while it listens for them. */
  function Step(w: Wait, e: Event): Wait {
    match e
    case Updated(u) => if w.subscribed then OnUpdate(w, u) else w
    case Replied(s) => if w.awaitingReply then OnReply(w, s) else w
    case Failed(message) => if w.awaitingReply then Settle(w.(awaitingReply := false), Rejected(message)) else w
    case TimedOut => if w.timeoutArmed then Settle(w, Rejected(TimeoutMessage(w.latestEntries))) else w
  }

  function Run(events: seq<Event>): Wait
  {
    if events == [] then STARTED else Step(Run(events[..|events| - 1]), events[|events| - 1])
  }

  // ----- What the wait promises, from the history of events alone -----

  function FirstReply(events: seq<Event>): Option<Snapshot>
  {
    if events == [] then None
    else
      var before := FirstReply(events[..|events| - 1]);
      var last := events[|events| - 1];
      if before.None? && last.Replied? then Some(last.snapshot) else before
  }

  function LatestUpdate(events: seq<Event>, cwd: Option<string>): Option<Update>
  {
    if events == [] then None
    else
      var last := events[|events| - 1];
      if last.Updated? && last.update.cwd == cwd then Some(last.update)
      else LatestUpdate(events[..|events| - 1], cwd)
  }

  /** The entries last seen for the reply's directory, since the reply. */
  function SeenEntries(events: seq<Event>): seq<Entry>
  {
    if events == [] then []
    else
      var before := events[..|events| - 1];
      var reply := FirstReply(before);
      match events[|events| - 1]
      case Replied(s) => if reply.None? then s.update.entries else SeenEntries(before)
      case Updated(u) => if reply.Some? && reply.value.update.cwd == u.cwd then u.entries else SeenEntries(before)
      case _ => SeenEntries(before)
  }

  /** Whether an event ends the wait after a history that has not. */
  function Decision(history: seq<Event>, e: Event): Option<Outcome> {
    var reply := FirstReply(history);
    match e
    case TimedOut => Some(Rejected(TimeoutMessage(SeenEntries(history))))
    case Failed(message) => if reply.Some? then None else Some(Rejected(message))
    case Replied(s) =>
      var buffered := LatestUpdate(history, s.update.cwd);
      if reply.Some? then None
      else if Ready(s.update.entries) then Some(Resolved(s))
      else if buffered.Some? && Ready(buffered.value.entries) then Some(Resolved(Snapshot(s.requestId, buffered.value)))
      else None
    case Updated(u) =>
      if reply.Some? && reply.value.update.cwd == u.cwd && Ready(u.entries)
      then Some(Resolved(Snapshot(reply.value.requestId, u)))
      else None
  }

  /** The decision of the first event that makes one. */
  function Decided(events: seq<Event>): Option<Outcome>
  {
    if events == [] then None
    else
      var before := Decided(events[..|events| - 1]);
      if before.Some? then before else Decision(events[..|events| - 1], events[|events| - 1])
  }

  ghost predicate IdsGiven(events: seq<Event>) {
    forall i | 0 <= i < |events| && events[i].Replied? :: events[i].snapshot.requestId != ""
  }

  /** The variables of an undecided wait, read off the history. */
  ghost predicate Tracks(w: Wait, events: seq<Event>) {
    var reply := FirstReply(events);
    && !w.settled && w.subscribed && w.timeoutArmed && w.settlements == []
    && (w.awaitingReply <==> reply.None?)
    && (reply.None? ==> w.requestId.None?)
    && (reply.Some? ==> w.requestId == Some(reply.value.requestId) && w.snapshotCwd == reply.value.update.cwd
                        && reply.value.requestId != "")
    && w.latestEntries == SeenEntries(events)
    && (reply.None? ==> forall c :: (if c in w.pendingUpdates then Some(w.pendingUpdates[c]) else None)
                                    == LatestUpdate(events, c))
  }

  ghost predicate Over(w: Wait, o: Outcome) {
    w.settled && !w.subscribed && !w.timeoutArmed && w.settlements == [o]
  }

  lemma StepTracks(w: Wait, events: seq<Event>, e: Event)
    requires Tracks(w, events) && (e.Replied? ==> e.snapshot.requestId != "")
    ensures Decision(events, e).None? ==> Tracks(Step(w, e), events + [e])
    ensures Decision(events, e).Some? ==> Over(Step(w, e), Decision(events, e).value)
  {
    assert (events + [e])[..|events|] == events;
  }

  lemma {:induction false} RunTracks(events: seq<Event>)
    requires IdsGiven(events)
    ensures Decided(events).None? ==> Tracks(Run(events), events)
    ensures Decided(events).Some? ==> Over(Run(events), Decided(events).value)
  {
    if events != [] {
      var n := |events| - 1;
      RunTracks(events[..n]);
      assert events == events[..n] + [events[n]];
      if Decided(events[..n]).None? {
        StepTracks(Run(events[..n]), events[..n], events[n]);
      }
    }
  }

  /** The wait settles exactly as its history decides, and no more than once. */
  lemma SettlesAsDecided(events: seq<Event>)
    requires IdsGiven(events)
    ensures Run(events).settlements == if Decided(events).Some? then [Decided(events).value] else []
  {
    RunTracks(events);
  }

  /** Whatever the ids, no run settles twice, a settled wait listens to nothing, and the request is
      answered once. */
  lemma {:induction false} SettlesAtMostOnce(events: seq<Event>)
    ensures var w := Run(events);
            && |w.settlements| == (if w.settled then 1 else 0)
            && (w.subscribed <==> !w.settled) && (w.timeoutArmed <==> !w.settled)
            && (w.awaitingReply <==> forall e | e in events :: !e.Replied? && !e.Failed?)
  {
    if events != [] {
      SettlesAtMostOnce(events[..|events| - 1]);
      assert events == events[..|events| - 1] + [events[|events| - 1]];
    }
  }

  /** A wait that times out is rejected with the providers last seen loading for its directory. */
  lemma TimeoutNamesLoading(events: seq<Event>)
    requires IdsGiven(events) && Decided(events).None?
    ensures var names := Listed(Loading(SeenEntries(events)));
            Run(events + [TimedOut]).settlements ==
            [Rejected(if names != "" then "Timed out waiting for providers: " + names
                      else "Timed out waiting for provider discovery")]
  {
    var all := events + [TimedOut];
    assert all[..|events|] == events;
    LoadingNamesAre(SeenEntries(events));
    SettlesAsDecided(all);
  }

  // ----- Consequences -----

  lemma {:induction false} FirstReplyOccurs(events: seq<Event>)
    ensures FirstReply(events).Some? ==> Replied(FirstReply(events).value) in events
  {
    if events != [] {
      FirstReplyOccurs(events[..|events| - 1]);
    }
  }

  lemma {:induction false} LatestUpdateOccurs(events: seq<Event>, cwd: Option<string>)
    ensures var u := LatestUpdate(events, cwd); u.Some? ==> u.value.cwd == cwd && Updated(u.value) in events
  {
    if events != [] {
      LatestUpdateOccurs(events[..|events| - 1], cwd);
    }
  }

  /** A resolution has no loading entry and carries the id and the directory of the reply; its
      entries are those of the reply itself or of an update that arrived. */
  lemma {:induction false} ResolvesReady(events: seq<Event>)
    requires Decided(events).Some? && Decided(events).value.Resolved?
    ensures var s := Decided(events).value.snapshot;
            && (forall e | e in s.update.entries :: e.status != "loading")
            && FirstReply(events).Some?
            && s.requestId == FirstReply(events).value.requestId
            && s.update.cwd == FirstReply(events).value.update.cwd
            && (s == FirstReply(events).value || Updated(s.update) in events)
  {
    var n := |events| - 1;
    assert events == events[..n] + [events[n]];
    if Decided(events[..n]).Some? {
      ResolvesReady(events[..n]);
    } else if events[n].Replied? {
      LatestUpdateOccurs(events[..n], events[n].snapshot.update.cwd);
    }
  }

  lemma {:induction false} DecidedStays(events: seq<Event>, i: nat)
    requires i <= |events| && Decided(events[..i]).Some?
    ensures Decided(events) == Decided(events[..i])
  {
    if i < |events| {
      assert events[..|events| - 1][..i] == events[..i];
      DecidedStays(events[..|events| - 1], i);
    } else {
      assert events[..i] == events;
    }
  }

  lemma {:induction false} FirstReplyStays(events: seq<Event>, i: nat)
    requires i <= |events| && FirstReply(events[..i]).Some?
    ensures FirstReply(events) == FirstReply(events[..i])
  {
    if i < |events| {
      assert events[..|events| - 1][..i] == events[..i];
      FirstReplyStays(events[..|events| - 1], i);
    } else {
      assert events[..i] == events;
    }
  }

  /** Something to wake up for: the reply at `i` is ready, or was overtaken by a ready update that was
      the latest for its directory, or is followed at `j` by a ready update for its directory. */
  ghost predicate WakeUp(events: seq<Event>, i: nat, j: nat) {
    && i < |events| && events[i].Replied? && FirstReply(events[..i]).None?
    && var reply := events[i].snapshot;
       || Ready(reply.update.entries)
       || (var u := LatestUpdate(events[..i], reply.update.cwd); u.Some? && Ready(u.value.entries))
       || (i < j < |events| && events[j].Updated? && events[j].update.cwd == reply.update.cwd
           && Ready(events[j].update.entries))
  }

  /** No wake-up is lost: a wait that had one has settled. */
  lemma NoLostWakeUp(events: seq<Event>, i: nat, j: nat)
    requires IdsGiven(events) && WakeUp(events, i, j)
    ensures Run(events).settled
  {
    var reply := events[i].snapshot;
    assert events[..i + 1][..i] == events[..i];
    if Decision(events[..i], events[i]).Some? {
      assert Decided(events[..i + 1]).Some?;
      DecidedStays(events, i + 1);
    } else {
      assert events[..j][..i + 1] == events[..i + 1];
      FirstReplyStays(events[..j], i + 1);
      assert events[..j + 1][..j] == events[..j];
      assert Decision(events[..j], events[j]).Some?;
      assert Decided(events[..j + 1]).Some?;
      DecidedStays(events, j + 1);
    }
    RunTracks(events);
  }

  /** Why the id must not be empty: after a loading reply that no buffered update overtakes, a ready
      update for the awaited directory settles the wait if and only if the reply's id is not empty. */
  lemma WakesIffIdGiven(history: seq<Event>, s: Snapshot, u: Update)
    requires FirstReply(history).None? && Decided(history).None? && Decision(history, Replied(s)).None?
    requires u.cwd == s.update.cwd && Ready(u.entries)
    ensures Run(history + [Replied(s), Updated(u)]).settled <==> s.requestId != ""
  {
    NoRepliesYet(history);
    RunTracks(history);
    var one := history + [Replied(s)];
    var two := history + [Replied(s), Updated(u)];
    assert one[..|history|] == history && two[..|history| + 1] == one;
    assert Run(one) == Step(Run(history), Replied(s));
    assert Run(two) == Step(Run(one), Updated(u));
  }

  lemma {:induction false} NoRepliesYet(events: seq<Event>)
    requires FirstReply(events).None?
    ensures IdsGiven(events)
  {
    if events != [] {
      NoRepliesYet(events[..|events| - 1]);
    }
  }

  // ----- The wait, with its variables -----

  class ProvidersReadyWait {
    var settled: bool
    var requestId: Option<string>
    var snapshotCwd: Option<string>
    var pendingUpdates: map<Option<string>, Update>
    var latestEntries: seq<Entry>
    var subscribed: bool
    var timeoutArmed: bool
    var awaitingReply: bool
    ghost var settlements: seq<Outcome>

    ghost function Contents(): Wait
      reads this
    {
      Wait(settled, requestId, snapshotCwd, pendingUpdates, latestEntries, subscribed, timeoutArmed, awaitingReply,
           settlements)
    }

    /** An old host is refused at once; otherwise the wait subscribes, arms its timeout and asks. */
    constructor (providersSnapshotCwd: bool)
      ensures Contents() == if providersSnapshotCwd then STARTED
                            else STARTED.(settled := true, subscribed := false, timeoutArmed := false,
                                          awaitingReply := false,
                                          settlements := [Rejected("Update the host to wait for provider discovery.")])
    {
      settled, requestId, snapshotCwd, pendingUpdates, latestEntries := !providersSnapshotCwd, None, None, map[], [];
      subscribed, timeoutArmed, awaitingReply := providersSnapshotCwd, providersSnapshotCwd, providersSnapshotCwd;
      settlements := if providersSnapshotCwd then [] else [Rejected("Update the host to wait for provider discovery.")];
    }

    method Finish(o: Outcome)
      modifies this
      ensures Contents() == Settle(old(Contents()), o)
    {
      if settled {
        return;
      }
      settled := true;
      timeoutArmed := false;
      subscribed := false;
      settlements := settlements + [o];
    }

    method HandleUpdate(update: Update)
      requires subscribed
      modifies this
      ensures Contents() == Step(old(Contents()), Updated(update))
    {
      if requestId.None? || requestId.value == "" {
        pendingUpdates := pendingUpdates[update.cwd := update];
        return;
      }
      if update.cwd != snapshotCwd {
        return;
      }
      latestEntries := update.entries;
      if !Ready(update.entries) {
        return;
      }
      Finish(Resolved(Snapshot(requestId.value, update)));
    }

    method HandleReply(snapshot: Snapshot)
      requires awaitingReply
      modifies this
      ensures Contents() == Step(old(Contents()), Replied(snapshot))
    {
      awaitingReply := false;
      requestId := Some(snapshot.requestId);
      snapshotCwd := snapshot.update.cwd;
      latestEntries := snapshot.update.entries;
      if Ready(snapshot.update.entries) {
        Finish(Resolved(snapshot));
        return;
      }
      if snapshotCwd in pendingUpdates && Ready(pendingUpdates[snapshotCwd].entries) {
        Finish(Resolved(Snapshot(snapshot.requestId, pendingUpdates[snapshotCwd])));
      }
    }

    method HandleFailure(message: string)
      requires awaitingReply
      modifies this
      ensures Contents() == Step(old(Contents()), Failed(message))
    {
      awaitingReply := false;
      Finish(Rejected(message));
    }

    method HandleTimeout()
      requires timeoutArmed
      modifies this
      ensures Contents() == Step(old(Contents()), TimedOut)
    {
      Finish(Rejected(TimeoutMessage(latestEntries)));
    }
  }
}
