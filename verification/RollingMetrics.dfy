/** The rolling runtime metrics as values: what is counted, what a flush reports, and the plain
    log of records that the buckets stand for. */
module RollingMetrics {
  import opened Options

  datatype Record =
    | Message(kind: string, bytes: int, handlerMs: int)
    | AgentStream(eventType: string, agentId: string)
    | BinaryFrame(kind: string, bytes: int, handlerMs: int)

  datatype Timing = Timing(count: int, totalMs: int, maxMs: int)

  type Counts = map<string, int>

  datatype Totals = Totals(messageCounts: Counts, messageBytes: Counts, handlerMs: map<string, Timing>,
                           agentStreamCounts: Counts, agentStreamByAgentCounts: Counts, binaryFrameCounts: Counts)

  const EMPTY := Totals(map[], map[], map[], map[], map[], map[])

  // ----- Counting -----

  function Get(m: Counts, k: string): int {
    if k in m then m[k] else 0
  }

  function Increment(m: Counts, k: string, amount: int): Counts {
    m[k := Get(m, k) + amount]
  }

  function Max(a: int, b: int): int {
    if a < b then b else a
  }

  function Joined(a: Timing, b: Timing): Timing {
    Timing(a.count + b.count, a.totalMs + b.totalMs, Max(a.maxMs, b.maxMs))
  }

  function Timed(m: map<string, Timing>, k: string, t: Timing): map<string, Timing> {
    m[k := if k in m then Joined(m[k], t) else t]
  }

  function BinaryKey(kind: string): string {
    "binary:" + kind
  }

  function Add(t: Totals, r: Record): Totals {
    match r
    case Message(kind, bytes, ms) =>
      t.(messageCounts := Increment(t.messageCounts, kind, 1),
         messageBytes := Increment(t.messageBytes, kind, bytes),
         handlerMs := Timed(t.handlerMs, kind, Timing(1, ms, ms)))
    case AgentStream(eventType, agentId) =>
      t.(agentStreamCounts := Increment(t.agentStreamCounts, eventType, 1),
         agentStreamByAgentCounts := Increment(t.agentStreamByAgentCounts, agentId, 1))
    case BinaryFrame(kind, bytes, ms) =>
      t.(binaryFrameCounts := Increment(t.binaryFrameCounts, kind, 1),
         messageBytes := Increment(t.messageBytes, BinaryKey(kind), bytes),
         handlerMs := Timed(t.handlerMs, BinaryKey(kind), Timing(1, ms, ms)))
  }

  /** The totals of a list of records: the naive account. */
  function Fold(records: seq<Record>): Totals
  {
    if records == [] then EMPTY else Add(Fold(records[..|records| - 1]), records[|records| - 1])
  }

  // ----- What the totals say of the records -----

  /** A choice of records. A binary frame's work is booked under its kind with a prefix. */
  datatype Selector =
    | Messages(kind: string)
    | Frames(kind: string)
    | Events(eventType: string)
    | Agents(agentId: string)
    | Work(key: string)
  {
    predicate Picks(r: Record) {
      match this
      case Messages(kind) => r.Message? && r.kind == kind
      case Frames(kind) => r.BinaryFrame? && r.kind == kind
      case Events(eventType) => r.AgentStream? && r.eventType == eventType
      case Agents(agentId) => r.AgentStream? && r.agentId == agentId
      case Work(key) => (r.Message? && r.kind == key) || (r.BinaryFrame? && "binary:" + r.kind == key)
    }
  }

  /** The chosen records, in order. */
  function Picked(records: seq<Record>, sel: Selector): seq<Record>
  {
    if records == [] then []
    else
      var last := records[|records| - 1];
      Picked(records[..|records| - 1], sel) + (if sel.Picks(last) then [last] else [])
  }

  function BytesOf(records: seq<Record>): int
  {
    if records == [] then 0
    else
      var last := records[|records| - 1];
      BytesOf(records[..|records| - 1]) + (if last.AgentStream? then 0 else last.bytes)
  }

  function TimesOf(records: seq<Record>): seq<int>
  {
    if records == [] then []
    else
      var last := records[|records| - 1];
      TimesOf(records[..|records| - 1]) + (if last.AgentStream? then [] else [last.handlerMs])
  }

  function Sum(times: seq<int>): int
  {
    if times == [] then 0 else Sum(times[..|times| - 1]) + times[|times| - 1]
  }

  lemma PickedSnoc(records: seq<Record>, sel: Selector)
    requires records != []
    ensures var n := |records| - 1;
            var before := Picked(records[..n], sel);
            Picked(records, sel) == if sel.Picks(records[n]) then before + [records[n]] else before
  {
  }

  /** A count is the number of records with the key; there is one if there is such a record. */
  ghost predicate CountsAre(counts: Counts, k: string, picked: seq<Record>) {
    && (k in counts <==> picked != [])
    && (k in counts ==> counts[k] == |picked|)
  }

  lemma {:induction false} CountsMean(records: seq<Record>, k: string)
    ensures CountsAre(Fold(records).messageCounts, k, Picked(records, Messages(k)))
    ensures CountsAre(Fold(records).binaryFrameCounts, k, Picked(records, Frames(k)))
    ensures CountsAre(Fold(records).agentStreamCounts, k, Picked(records, Events(k)))
    ensures CountsAre(Fold(records).agentStreamByAgentCounts, k, Picked(records, Agents(k)))
  {
    if records != [] {
      var n := |records| - 1;
      var (before, last) := (Fold(records[..n]), records[n]);
      CountsMean(records[..n], k);
      PickedSnoc(records, Messages(k));
      PickedSnoc(records, Frames(k));
      PickedSnoc(records, Events(k));
      PickedSnoc(records, Agents(k));
      assert Fold(records) == Add(before, last);
      hide Fold, Picked, CountsAre, Increment;
      match last
      case Message(kind, _, _) => CountsNext(before.messageCounts, kind, k, Picked(records[..n], Messages(k)), last);
      case BinaryFrame(kind, _, _) =>
        CountsNext(before.binaryFrameCounts, kind, k, Picked(records[..n], Frames(k)), last);
      case AgentStream(event, agent) =>
        CountsNext(before.agentStreamCounts, event, k, Picked(records[..n], Events(k)), last);
        CountsNext(before.agentStreamByAgentCounts, agent, k, Picked(records[..n], Agents(k)), last);
    }
  }

  lemma CountsNext(counts: Counts, key: string, k: string, picked: seq<Record>, r: Record)
    requires CountsAre(counts, k, picked)
    ensures CountsAre(Increment(counts, key, 1), k, if key == k then picked + [r] else picked)
  {
  }

  lemma AddToWork(t: Totals, r: Record)
    ensures match r
            case AgentStream(_, _) => Add(t, r).messageBytes == t.messageBytes && Add(t, r).handlerMs == t.handlerMs
            case Message(kind, bytes, ms) =>
              && Add(t, r).messageBytes == Increment(t.messageBytes, kind, bytes)
              && Add(t, r).handlerMs == Timed(t.handlerMs, kind, Timing(1, ms, ms))
            case BinaryFrame(kind, bytes, ms) =>
              && Add(t, r).messageBytes == Increment(t.messageBytes, "binary:" + kind, bytes)
              && Add(t, r).handlerMs == Timed(t.handlerMs, "binary:" + kind, Timing(1, ms, ms))
  {
  }

  lemma WorkSnoc(records: seq<Record>, r: Record)
    requires !r.AgentStream?
    ensures BytesOf(records + [r]) == BytesOf(records) + r.bytes
    ensures TimesOf(records + [r]) == TimesOf(records) + [r.handlerMs]
  {
    assert (records + [r])[..|records|] == records;
  }

  /** The bytes under a key are the sum over the messages of that kind and the binary frames whose kind,
      with its prefix, is the key. */
  lemma {:induction false} BytesMean(records: seq<Record>, k: string)
    ensures var bytes := Fold(records).messageBytes;
            && (k in bytes <==> Picked(records, Work(k)) != [])
            && (k in bytes ==> bytes[k] == BytesOf(Picked(records, Work(k))))
  {
    if records != [] {
      var n := |records| - 1;
      var last := records[n];
      BytesMean(records[..n], k);
      PickedSnoc(records, Work(k));
      AddToWork(Fold(records[..n]), last);
      assert Fold(records) == Add(Fold(records[..n]), last);
      hide Fold, Add, Picked, BytesOf;
      if !last.AgentStream? {
        WorkSnoc(Picked(records[..n], Work(k)), last);
      }
    }
  }

  /** How often, how long in all, and how long at most the handlers of a key took. */
  ghost predicate Summarises(t: Timing, times: seq<int>) {
    t.count == |times| && t.totalMs == Sum(times) && t.maxMs in times && forall ms | ms in times :: ms <= t.maxMs
  }

  lemma SummarisesNext(t: Timing, times: seq<int>, ms: int)
    requires Summarises(t, times)
    ensures Summarises(Joined(t, Timing(1, ms, ms)), times + [ms])
  {
    assert (times + [ms])[..|times|] == times;
    assert t.maxMs in times + [ms] && ms in times + [ms];
  }

  lemma SummarisesFirst(ms: int)
    ensures Summarises(Timing(1, ms, ms), [] + [ms])
  {
    assert [] + [ms] == [ms] && [ms][..0] == [];
  }

  lemma {:induction false} TimingsMean(records: seq<Record>, k: string)
    ensures var timings := Fold(records).handlerMs;
            && (k in timings <==> Picked(records, Work(k)) != [])
            && (k in timings ==> Summarises(timings[k], TimesOf(Picked(records, Work(k)))))
  {
    if records != [] {
      var n := |records| - 1;
      var last := records[n];
      TimingsMean(records[..n], k);
      PickedSnoc(records, Work(k));
      AddToWork(Fold(records[..n]), last);
      assert Fold(records) == Add(Fold(records[..n]), last);
      assert TimesOf([]) == [];
      hide Fold, Add, Picked, TimesOf, Summarises;
      var picked := Picked(records[..n], Work(k));
      if !last.AgentStream? {
        WorkSnoc(picked, last);
        if k in Fold(records[..n]).handlerMs {
          SummarisesNext(Fold(records[..n]).handlerMs[k], TimesOf(picked), last.handlerMs);
        } else {
          SummarisesFirst(last.handlerMs);
        }
      }
    }
  }

  lemma SumConcat(a: seq<int>, b: int)
    ensures Sum(a + [b]) == Sum(a) + b
  {
    assert (a + [b])[..|a|] == a;
  }

  /** The work under a prefixed key is that of the messages of that name and of the frames of the kind. */
  lemma {:induction false} WorkSplits(records: seq<Record>, kind: string)
    ensures var work := Picked(records, Work("binary:" + kind));
            var (messages, frames) := (Picked(records, Messages("binary:" + kind)), Picked(records, Frames(kind)));
            && |work| == |messages| + |frames|
            && BytesOf(work) == BytesOf(messages) + BytesOf(frames)
            && |TimesOf(work)| == |messages| + |frames|
            && Sum(TimesOf(work)) == Sum(TimesOf(messages)) + Sum(TimesOf(frames))
            && (forall ms :: ms in TimesOf(work) <==> ms in TimesOf(messages) || ms in TimesOf(frames))
  {
    var key := "binary:" + kind;
    if records != [] {
      var n := |records| - 1;
      var last := records[n];
      WorkSplits(records[..n], kind);
      PickedSnoc(records, Work(key));
      PickedSnoc(records, Messages(key));
      PickedSnoc(records, Frames(kind));
      SameKind(last, kind);
      hide Picked, BytesOf, TimesOf, Sum;
      var part := if last.Message? then Picked(records[..n], Messages(key)) else Picked(records[..n], Frames(kind));
      if Work(key).Picks(last) {
        WorkSnoc(Picked(records[..n], Work(key)), last);
        WorkSnoc(part, last);
        SumConcat(TimesOf(Picked(records[..n], Work(key))), last.handlerMs);
        SumConcat(TimesOf(part), last.handlerMs);
      }
    }
  }

  lemma SameKind(r: Record, kind: string)
    ensures Work("binary:" + kind).Picks(r) <==> Messages("binary:" + kind).Picks(r) || Frames(kind).Picks(r)
  {
    if r.BinaryFrame? && "binary:" + r.kind == "binary:" + kind {
      assert ("binary:" + r.kind)[7..] == r.kind && ("binary:" + kind)[7..] == kind;
    }
  }

  /** Binary frames of a kind are booked under `binary:` and the kind, together with messages of exactly
      that name. */
  lemma FrameWork(records: seq<Record>, kind: string)
    ensures var (totals, key) := (Fold(records), "binary:" + kind);
            var (messages, frames) := (Picked(records, Messages(key)), Picked(records, Frames(kind)));
            && (key in totals.messageBytes <==> messages != [] || frames != [])
            && (key in totals.handlerMs <==> messages != [] || frames != [])
            && (messages != [] || frames != [] ==>
                  && totals.messageBytes[key] == BytesOf(messages) + BytesOf(frames)
                  && var t := totals.handlerMs[key];
                     && t.count == |messages| + |frames|
                     && t.totalMs == Sum(TimesOf(messages)) + Sum(TimesOf(frames))
                     && (t.maxMs in TimesOf(messages) || t.maxMs in TimesOf(frames))
                     && (forall ms | ms in TimesOf(messages) || ms in TimesOf(frames) :: ms <= t.maxMs))
  {
    BytesMean(records, "binary:" + kind);
    TimingsMean(records, "binary:" + kind);
    WorkSplits(records, kind);
    hide Fold, Picked, BytesOf, TimesOf, Sum;
  }

  /** Under any other name are messages alone. */
  lemma MessageWork(records: seq<Record>, k: string)
    requires !("binary:" <= k)
    ensures var (totals, messages) := (Fold(records), Picked(records, Messages(k)));
            && (k in totals.messageBytes <==> messages != [])
            && (k in totals.handlerMs <==> messages != [])
            && (messages != [] ==>
                  totals.messageBytes[k] == BytesOf(messages) && Summarises(totals.handlerMs[k], TimesOf(messages)))
  {
    BytesMean(records, k);
    TimingsMean(records, k);
    OnlyMessages(records, k);
    hide Fold, Picked, BytesOf, TimesOf, Summarises;
  }

  lemma {:induction false} OnlyMessages(records: seq<Record>, k: string)
    requires !("binary:" <= k)
    ensures Picked(records, Work(k)) == Picked(records, Messages(k))
  {
    if records != [] {
      var last := records[|records| - 1];
      OnlyMessages(records[..|records| - 1], k);
      assert last.BinaryFrame? ==> "binary:" <= "binary:" + last.kind;
    }
  }

  // ----- Merging -----

  function MergeCounts(a: Counts, b: Counts): Counts {
    map k | k in a.Keys + b.Keys :: Get(a, k) + Get(b, k)
  }

  function MergeTimings(a: map<string, Timing>, b: map<string, Timing>): map<string, Timing> {
    map k | k in a.Keys + b.Keys :: if k !in b then a[k] else if k !in a then b[k] else Joined(a[k], b[k])
  }

  function Merge(a: Totals, b: Totals): Totals {
    Totals(MergeCounts(a.messageCounts, b.messageCounts), MergeCounts(a.messageBytes, b.messageBytes),
           MergeTimings(a.handlerMs, b.handlerMs), MergeCounts(a.agentStreamCounts, b.agentStreamCounts),
           MergeCounts(a.agentStreamByAgentCounts, b.agentStreamByAgentCounts),
           MergeCounts(a.binaryFrameCounts, b.binaryFrameCounts))
  }

  lemma MergeIncrement(a: Counts, b: Counts, k: string, amount: int)
    ensures MergeCounts(a, Increment(b, k, amount)) == Increment(MergeCounts(a, b), k, amount)
  {
  }

  lemma MergeTimed(a: map<string, Timing>, b: map<string, Timing>, k: string, t: Timing)
    ensures MergeTimings(a, Timed(b, k, t)) == Timed(MergeTimings(a, b), k, t)
  {
  }

  lemma MergeAdd(a: Totals, b: Totals, r: Record)
    ensures Merge(a, Add(b, r)) == Add(Merge(a, b), r)
  {
    match r
    case Message(kind, bytes, ms) =>
      MergeIncrement(a.messageCounts, b.messageCounts, kind, 1);
      MergeIncrement(a.messageBytes, b.messageBytes, kind, bytes);
      MergeTimed(a.handlerMs, b.handlerMs, kind, Timing(1, ms, ms));
    case AgentStream(eventType, agentId) =>
      MergeIncrement(a.agentStreamCounts, b.agentStreamCounts, eventType, 1);
      MergeIncrement(a.agentStreamByAgentCounts, b.agentStreamByAgentCounts, agentId, 1);
    case BinaryFrame(kind, bytes, ms) =>
      MergeIncrement(a.binaryFrameCounts, b.binaryFrameCounts, kind, 1);
      MergeIncrement(a.messageBytes, b.messageBytes, BinaryKey(kind), bytes);
      MergeTimed(a.handlerMs, b.handlerMs, BinaryKey(kind), Timing(1, ms, ms));
  }

  lemma MergeEmpty(a: Totals)
    ensures Merge(a, EMPTY) == a && Merge(EMPTY, a) == a
  {
    assert MergeCounts(a.messageCounts, map[]) == a.messageCounts == MergeCounts(map[], a.messageCounts);
    assert MergeCounts(a.messageBytes, map[]) == a.messageBytes == MergeCounts(map[], a.messageBytes);
    assert MergeTimings(a.handlerMs, map[]) == a.handlerMs == MergeTimings(map[], a.handlerMs);
    assert MergeCounts(a.agentStreamCounts, map[]) == a.agentStreamCounts == MergeCounts(map[], a.agentStreamCounts);
    assert MergeCounts(a.agentStreamByAgentCounts, map[]) == a.agentStreamByAgentCounts
        == MergeCounts(map[], a.agentStreamByAgentCounts);
    assert MergeCounts(a.binaryFrameCounts, map[]) == a.binaryFrameCounts == MergeCounts(map[], a.binaryFrameCounts);
  }

  /** Merging totals is counting the records of both: sums for counts, bytes and times, the
      larger of the maxima, and no entry for what was never recorded. */
  lemma {:induction false} MergeIsFold(r: seq<Record>, s: seq<Record>)
    ensures Merge(Fold(r), Fold(s)) == Fold(r + s)
  {
    if s == [] {
      assert r + s == r;
      MergeEmpty(Fold(r));
    } else {
      var n := |s| - 1;
      MergeIsFold(r, s[..n]);
      MergeAdd(Fold(r), Fold(s[..n]), s[n]);
      hide Merge, Add;
      assert (r + s)[..|r + s| - 1] == r + s[..n];
    }
  }

  // ----- Buckets -----

  datatype Ended = Ended(totals: Totals, endedAt: int)

  /** `startedAt` and `windowMs` never change. */
  datatype Metrics = Metrics(startedAt: int, windowMs: int, current: Totals, buckets: seq<Ended>)

  datatype Report = Report(windowMs: int, rollingWindowMs: int, bucketCount: nat, isFinal: bool, totals: Totals)

  const DEFAULT_ROLLING_WINDOW_MS := 60_000

  function NewMetrics(now: int, windowMs: Option<int>): Metrics {
    Metrics(now, if windowMs.Some? && windowMs.value > 0 then windowMs.value else DEFAULT_ROLLING_WINDOW_MS, EMPTY, [])
  }

  predicate HasActivity(t: Totals) {
    t.messageCounts != map[] || t.binaryFrameCounts != map[]
  }

  function Consume(m: Metrics, now: int): Metrics {
    if HasActivity(m.current) then m.(current := EMPTY, buckets := m.buckets + [Ended(m.current, now)]) else m
  }

  function Prune(buckets: seq<Ended>, cutoff: int): seq<Ended>
  {
    if buckets != [] && buckets[0].endedAt < cutoff then Prune(buckets[1..], cutoff) else buckets
  }

  function Aggregate(buckets: seq<Ended>): Totals
  {
    if buckets == [] then EMPTY
    else Merge(Aggregate(buckets[..|buckets| - 1]), buckets[|buckets| - 1].totals)
  }

  function Flushed(m: Metrics, now: int): Metrics {
    var c := Consume(m, now);
    c.(buckets := Prune(c.buckets, now - m.windowMs))
  }

  /** What a flush logs, if anything. */
  function Reported(m: Metrics, now: int, isFinal: bool): Option<Report> {
    var after := Flushed(m, now);
    var totals := Aggregate(after.buckets);
    var age := Max(0, now - m.startedAt);
    if !HasActivity(totals) && !isFinal then None
    else Some(Report(if m.windowMs < age then m.windowMs else age, m.windowMs, |after.buckets|, isFinal, totals))
  }

  // ----- The log the buckets stand for -----

  datatype Batch = Batch(records: seq<Record>, endedAt: int)

  /** Everything ever recorded: what each flush closed, and what is still open. */
  datatype Journal = Journal(batches: seq<Batch>, pending: seq<Record>)

  datatype Op = Recorded(record: Record) | Flush(now: int)

  predicate Countable(r: Record) {
    r.Message? || r.BinaryFrame?
  }

  /** Agent-stream records alone never close a batch. */
  ghost predicate Closable(records: seq<Record>) {
    exists r | r in records :: Countable(r)
  }

  ghost function Write(j: Journal, op: Op): Journal {
    match op
    case Recorded(r) => j.(pending := j.pending + [r])
    case Flush(now) => if Closable(j.pending) then Journal(j.batches + [Batch(j.pending, now)], []) else j
  }

  ghost function WriteAll(ops: seq<Op>): Journal
  {
    if ops == [] then Journal([], []) else Write(WriteAll(ops[..|ops| - 1]), ops[|ops| - 1])
  }

  function Perform(m: Metrics, op: Op): Metrics {
    match op
    case Recorded(r) => m.(current := Add(m.current, r))
    case Flush(now) => Flushed(m, now)
  }

  function Run(m: Metrics, ops: seq<Op>): Metrics
  {
    if ops == [] then m else Perform(Run(m, ops[..|ops| - 1]), ops[|ops| - 1])
  }

  /** The time of the last flush; `start` when there was none. */
  function LastFlush(ops: seq<Op>, start: int): int
  {
    if ops == [] then start
    else
      var last := ops[|ops| - 1];
      if last.Flush? then last.now else LastFlush(ops[..|ops| - 1], start)
  }

  /** The clock never goes back between flushes. */
  predicate ClockAdvances(ops: seq<Op>, start: int)
  {
    ops == []
    || (var n := |ops| - 1;
        ClockAdvances(ops[..n], start) && (ops[n].Flush? ==> LastFlush(ops[..n], start) <= ops[n].now))
  }

  /** The batches that ended inside the window. */
  ghost function InWindow(batches: seq<Batch>, cutoff: int): seq<Batch>
  {
    if batches == [] then []
    else
      var last := batches[|batches| - 1];
      InWindow(batches[..|batches| - 1], cutoff) + (if last.endedAt >= cutoff then [last] else [])
  }

  ghost function Records(batches: seq<Batch>): seq<Record>
  {
    if batches == [] then [] else Records(batches[..|batches| - 1]) + batches[|batches| - 1].records
  }

  ghost function Folded(batches: seq<Batch>): seq<Ended> {
    seq(|batches|, i requires 0 <= i < |batches| => Ended(Fold(batches[i].records), batches[i].endedAt))
  }

  // ----- Pruning a sorted list is filtering it -----

  ghost predicate Sorted(batches: seq<Batch>) {
    forall i, j | 0 <= i < j < |batches| :: batches[i].endedAt <= batches[j].endedAt
  }

  ghost predicate AllFrom(batches: seq<Batch>, cutoff: int) {
    forall i | 0 <= i < |batches| :: batches[i].endedAt >= cutoff
  }

  lemma {:induction false} WindowOfAll(batches: seq<Batch>, cutoff: int)
    requires AllFrom(batches, cutoff)
    ensures InWindow(batches, cutoff) == batches
  {
    if batches != [] {
      WindowOfAll(batches[..|batches| - 1], cutoff);
      assert batches == batches[..|batches| - 1] + [batches[|batches| - 1]];
    }
  }

  lemma {:induction false} WindowDropsFirst(batches: seq<Batch>, cutoff: int)
    requires batches != [] && batches[0].endedAt < cutoff
    ensures InWindow(batches, cutoff) == InWindow(batches[1..], cutoff)
  {
    var n := |batches| - 1;
    if n > 0 {
      WindowDropsFirst(batches[..n], cutoff);
      assert batches[..n][1..] == batches[1..][..n - 1];
    } else {
      assert batches[..n] == [] && batches[1..] == [];
    }
  }

  lemma {:induction false} WindowLength(batches: seq<Batch>, cutoff: int)
    ensures |InWindow(batches, cutoff)| <= |batches|
    ensures |InWindow(batches, cutoff)| == |batches| ==> AllFrom(batches, cutoff)
  {
    if batches != [] {
      WindowLength(batches[..|batches| - 1], cutoff);
      assert batches == batches[..|batches| - 1] + [batches[|batches| - 1]];
    }
  }

  /** No batch that has left the window stands behind one inside it. */
  ghost predicate ExpiredFirst(batches: seq<Batch>, cutoff: int) {
    forall i, j | 0 <= i < j < |batches| :: batches[j].endedAt < cutoff ==> batches[i].endedAt < cutoff
  }

  /** Dropping from the front leaves the batches inside the window exactly when no batch that has left
      it stands behind one inside; a clock that does not go back sees to that. */
  lemma {:induction false} PruneIsWindowIff(batches: seq<Batch>, cutoff: int)
    ensures Prune(Folded(batches), cutoff) == Folded(InWindow(batches, cutoff)) <==> ExpiredFirst(batches, cutoff)
    decreases |batches|
  {
    if batches == [] {
    } else if batches[0].endedAt < cutoff {
      WindowDropsFirst(batches, cutoff);
      PruneIsWindowIff(batches[1..], cutoff);
      assert Folded(batches)[1..] == Folded(batches[1..]);
      assert batches == [batches[0]] + batches[1..];
    } else if AllFrom(batches, cutoff) {
      WindowOfAll(batches, cutoff);
    } else {
      WindowLength(batches, cutoff);
      assert |Folded(batches)| != |Folded(InWindow(batches, cutoff))|;
    }
  }

  lemma PruneIsWindow(batches: seq<Batch>, cutoff: int)
    requires Sorted(batches)
    ensures Prune(Folded(batches), cutoff) == Folded(InWindow(batches, cutoff))
  {
    PruneIsWindowIff(batches, cutoff);
  }

  lemma {:induction false} WindowOfWindow(batches: seq<Batch>, early: int, late: int)
    requires early <= late
    ensures InWindow(InWindow(batches, early), late) == InWindow(batches, late)
  {
    if batches != [] {
      var n := |batches| - 1;
      WindowOfWindow(batches[..n], early, late);
      var inner := InWindow(batches[..n], early);
      if batches[n].endedAt >= early {
        assert (inner + [batches[n]])[..|inner|] == inner;
      } else {
        assert inner + [] == inner;
      }
    }
  }

  lemma {:induction false} WindowStaysSorted(batches: seq<Batch>, cutoff: int, last: int)
    requires Sorted(batches) && forall i | 0 <= i < |batches| :: batches[i].endedAt <= last
    ensures var w := InWindow(batches, cutoff);
            Sorted(w) && forall i | 0 <= i < |w| :: w[i].endedAt <= last
  {
    if batches != [] {
      var n := |batches| - 1;
      WindowStaysSorted(batches[..n], cutoff, batches[n].endedAt);
    }
  }

  // ----- Activity -----

  lemma {:induction false} ActiveIffClosable(records: seq<Record>)
    ensures HasActivity(Fold(records)) <==> Closable(records)
  {
    if records != [] {
      var n := |records| - 1;
      ActiveIffClosable(records[..n]);
      var t, last := Fold(records[..n]), records[n];
      assert records == records[..n] + [last];
      if Countable(last) {
        assert last in records;
        assert last.kind in Add(t, last).messageCounts || last.kind in Add(t, last).binaryFrameCounts;
      } else {
        assert HasActivity(Add(t, last)) == HasActivity(t);
        assert Closable(records) == Closable(records[..n]);
      }
    }
  }

  // ----- The buckets refine the log -----

  /** What the buckets mean between operations, after a last flush at time `last`. */
  ghost predicate Means(m: Metrics, j: Journal, last: int) {
    && m.current == Fold(j.pending)
    && m.buckets == Folded(InWindow(j.batches, last - m.windowMs))
    && Sorted(j.batches)
    && (forall i | 0 <= i < |j.batches| :: j.batches[i].endedAt <= last)
  }

  lemma FoldedSnoc(batches: seq<Batch>, b: Batch)
    ensures Folded(batches + [b]) == Folded(batches) + [Ended(Fold(b.records), b.endedAt)]
  {
  }

  lemma ConsumeKeepsMeaning(m: Metrics, j: Journal, last: int, now: int)
    requires Means(m, j, last) && last <= now && m.windowMs > 0
    ensures var c := Consume(m, now);
            var k := Write(j, Flush(now));
            c.windowMs == m.windowMs && Means(c.(buckets := Folded(InWindow(k.batches, now - m.windowMs))), k, now)
    ensures Consume(m, now).buckets == Folded(InWindow(Write(j, Flush(now)).batches, last - m.windowMs))
  {
    ActiveIffClosable(j.pending);
    assert Fold([]) == EMPTY;
    hide Closable, HasActivity, Fold;
    if Closable(j.pending) {
      var closed := Batch(j.pending, now);
      assert (j.batches + [closed])[..|j.batches|] == j.batches;
      hide Folded;
      FoldedSnoc(InWindow(j.batches, last - m.windowMs), closed);
    }
  }

  lemma FlushKeepsMeaning(m: Metrics, j: Journal, last: int, now: int)
    requires Means(m, j, last) && last <= now && m.windowMs > 0
    ensures Means(Flushed(m, now), Write(j, Flush(now)), now)
  {
    var k := Write(j, Flush(now));
    var early := last - m.windowMs;
    var late := now - m.windowMs;
    ConsumeKeepsMeaning(m, j, last, now);
    hide Closable, HasActivity, Fold, Consume, Write, Folded, InWindow, Prune;
    WindowStaysSorted(k.batches, early, now);
    PruneIsWindow(InWindow(k.batches, early), late);
    WindowOfWindow(k.batches, early, late);
  }

  lemma {:induction false} RunMeans(m: Metrics, ops: seq<Op>)
    requires m.windowMs > 0 && m.current == EMPTY && m.buckets == []
    requires ClockAdvances(ops, m.startedAt)
    ensures var after := Run(m, ops);
            && after.windowMs == m.windowMs && after.startedAt == m.startedAt
            && Means(after, WriteAll(ops), LastFlush(ops, m.startedAt))
  {
    if ops != [] {
      var n := |ops| - 1;
      RunMeans(m, ops[..n]);
      var was, j := Run(m, ops[..n]), WriteAll(ops[..n]);
      match ops[n]
      case Recorded(r) => assert (j.pending + [r])[..|j.pending|] == j.pending;
      case Flush(now) => FlushKeepsMeaning(was, j, LastFlush(ops[..n], m.startedAt), now);
    }
  }

  lemma {:induction false} AggregateIsFold(batches: seq<Batch>)
    ensures Aggregate(Folded(batches)) == Fold(Records(batches))
  {
    if batches != [] {
      var n := |batches| - 1;
      AggregateIsFold(batches[..n]);
      MergeIsFold(Records(batches[..n]), batches[n].records);
      assert Folded(batches)[..n] == Folded(batches[..n]);
    }
  }

  lemma LastStep(m: Metrics, ops: seq<Op>, now: int)
    ensures var all := ops + [Flush(now)];
            && Run(m, all) == Flushed(Run(m, ops), now) && LastFlush(all, m.startedAt) == now
            && (ClockAdvances(all, m.startedAt) ==> ClockAdvances(ops, m.startedAt))
  {
    assert (ops + [Flush(now)])[..|ops|] == ops;
  }

  lemma BucketsCountWindow(m: Metrics, j: Journal, last: int)
    requires Means(m, j, last)
    ensures var window := InWindow(j.batches, last - m.windowMs);
            && Aggregate(m.buckets) == Fold(Records(window))
            && |m.buckets| == |window|
            && (HasActivity(Aggregate(m.buckets)) <==> Closable(Records(window)))
  {
    var window := InWindow(j.batches, last - m.windowMs);
    AggregateIsFold(window);
    ActiveIffClosable(Records(window));
  }

  /** The main result: after any run whose clock does not go back, what a flush reports is a direct
      count of the records of the batches that ended inside the window, each counted once. The window
      is the one asked for if it is positive, and a minute otherwise. */
  lemma FlushReportsWindow(start: int, asked: Option<int>, ops: seq<Op>, now: int, isFinal: bool)
    requires ClockAdvances(ops + [Flush(now)], start)
    ensures var windowMs := if asked.Some? && asked.value > 0 then asked.value else 60_000;
            var window := InWindow(WriteAll(ops + [Flush(now)]).batches, now - windowMs);
            var report := Reported(Run(NewMetrics(start, asked), ops), now, isFinal);
            && (report.Some? <==> isFinal || Closable(Records(window)))
            && (report.Some? ==>
                  && report.value.totals == Fold(Records(window)) && report.value.bucketCount == |window|
                  && report.value.rollingWindowMs == windowMs && report.value.isFinal == isFinal
                  && report.value.windowMs == if windowMs <= now - start then windowMs
                                              else if start <= now then now - start else 0)
  {
    var (m, all) := (NewMetrics(start, asked), ops + [Flush(now)]);
    LastStep(m, ops, now);
    hide WriteAll, Run, LastFlush, ClockAdvances, Means, Flushed, Aggregate, Fold, Records, InWindow, HasActivity,
         Closable;
    RunMeans(m, ops);
    RunMeans(m, all);
    BucketsCountWindow(Run(m, all), WriteAll(all), now);
  }

  // ----- Conservation -----

  function RecordsOf(ops: seq<Op>): seq<Record>
  {
    if ops == [] then []
    else
      var last := ops[|ops| - 1];
      RecordsOf(ops[..|ops| - 1]) + (if last.Recorded? then [last.record] else [])
  }

  /** The journal is everything recorded, in order, cut into batches. */
  lemma {:induction false} JournalIsComplete(ops: seq<Op>)
    ensures Records(WriteAll(ops).batches) + WriteAll(ops).pending == RecordsOf(ops)
  {
    if ops != [] {
      var n := |ops| - 1;
      JournalIsComplete(ops[..n]);
      var j := WriteAll(ops[..n]);
      match ops[n]
      case Recorded(r) =>
        assert Records(j.batches) + (j.pending + [r]) == Records(j.batches) + j.pending + [r];
      case Flush(now) =>
        var k := Write(j, Flush(now));
        assert RecordsOf(ops) == RecordsOf(ops[..n]);
        if Closable(j.pending) {
          assert k.batches[..|j.batches|] == j.batches;
          assert Records(k.batches) + [] == Records(j.batches) + j.pending;
        }
    }
  }

  /** The batches that ended before the window. */
  ghost function Expired(batches: seq<Batch>, cutoff: int): seq<Batch>
  {
    if batches == [] then []
    else
      var last := batches[|batches| - 1];
      Expired(batches[..|batches| - 1], cutoff) + (if last.endedAt < cutoff then [last] else [])
  }

  lemma {:induction false} WindowOfNone(batches: seq<Batch>, cutoff: int)
    requires forall i | 0 <= i < |batches| :: batches[i].endedAt < cutoff
    ensures InWindow(batches, cutoff) == []
  {
    if batches != [] {
      WindowOfNone(batches[..|batches| - 1], cutoff);
    }
  }

  lemma {:induction false} ExpiredThenWindow(batches: seq<Batch>, cutoff: int)
    requires Sorted(batches)
    ensures Expired(batches, cutoff) + InWindow(batches, cutoff) == batches
  {
    if batches != [] {
      var n := |batches| - 1;
      ExpiredThenWindow(batches[..n], cutoff);
      var expired, kept := Expired(batches[..n], cutoff), InWindow(batches[..n], cutoff);
      var last := [batches[n]];
      if batches[n].endedAt < cutoff {
        WindowOfNone(batches[..n], cutoff);
        hide Sorted, Expired, InWindow;
        assert expired + last + ([] + []) == expired + [] + last;
      } else {
        hide Sorted, Expired, InWindow;
        assert expired + [] + (kept + last) == expired + kept + last;
      }
    }
  }

  lemma {:induction false} RecordsConcat(a: seq<Batch>, b: seq<Batch>)
    ensures Records(a + b) == Records(a) + Records(b)
  {
    if b == [] {
      assert a + b == a;
    } else {
      var n := |b| - 1;
      RecordsConcat(a, b[..n]);
      assert (a + b)[..|a + b| - 1] == a + b[..n] && (a + b)[|a + b| - 1] == b[n];
      assert Records(a + b) == Records(a + b[..n]) + b[n].records;
      hide Records;
      assert Records(a) + Records(b[..n]) + b[n].records == Records(a) + (Records(b[..n]) + b[n].records);
    }
  }

  /** Nothing is lost and nothing counted twice: the pruned batches, the stored buckets and what is
      still open add up to everything recorded. */
  lemma TotalsAreConserved(m: Metrics, ops: seq<Op>)
    requires m.windowMs > 0 && m.current == EMPTY && m.buckets == []
    requires ClockAdvances(ops, m.startedAt)
    ensures var after := Run(m, ops);
            var pruned := Expired(WriteAll(ops).batches, LastFlush(ops, m.startedAt) - m.windowMs);
            Merge(Merge(Fold(Records(pruned)), Aggregate(after.buckets)), after.current) == Fold(RecordsOf(ops))
  {
    hide Merge, Fold, Aggregate, Records, RecordsOf, InWindow, Expired, WriteAll, LastFlush, ClockAdvances, Run, Folded;
    RunMeans(m, ops);
    var j := WriteAll(ops);
    var cutoff := LastFlush(ops, m.startedAt) - m.windowMs;
    MeansConserves(Run(m, ops), j, LastFlush(ops, m.startedAt));
    JournalIsComplete(ops);
  }

  lemma MeansConserves(m: Metrics, j: Journal, last: int)
    requires Means(m, j, last)
    ensures Merge(Merge(Fold(Records(Expired(j.batches, last - m.windowMs))), Aggregate(m.buckets)), m.current)
            == Fold(Records(j.batches) + j.pending)
  {
    hide Merge, Fold, Aggregate, Records, InWindow, Expired, Folded;
    var pruned, kept := Expired(j.batches, last - m.windowMs), InWindow(j.batches, last - m.windowMs);
    ExpiredThenWindow(j.batches, last - m.windowMs);
    AggregateIsFold(kept);
    RecordsConcat(pruned, kept);
    MergeIsFold(Records(pruned), Records(kept));
    MergeIsFold(Records(j.batches), j.pending);
  }
}
