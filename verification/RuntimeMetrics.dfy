/** The client's runtime metrics, updated in place. Handler timings are objects that the merge and
    record code mutates, so which map may hold which object matters. */
module RuntimeMetrics {
  import opened Options
  import opened RollingMetrics

  class HandlerTiming {
    var count: int
    var totalMs: int
    var maxMs: int

    function Value(): Timing
      reads this
    {
      Timing(count, totalMs, maxMs)
    }

    constructor (t: Timing)
      ensures Value() == t
    {
      count, totalMs, maxMs := t.count, t.totalMs, t.maxMs;
    }
  }

  type TimingMap = map<string, HandlerTiming>

  /** The objects a map holds. */
  ghost function Cells(m: TimingMap): set<HandlerTiming> {
    m.Values
  }

  function TimingsOf(m: TimingMap): map<string, Timing>
    reads Cells(m)
  {
    map k | k in m :: m[k].Value()
  }

  /** No two keys share an object. */
  ghost predicate Separate(m: TimingMap) {
    forall k, l | k in m && l in m && k != l :: m[k] != m[l]
  }

  lemma EmptyTimings()
    ensures TimingsOf(map[]) == map[] && Separate(map[]) && Cells(map[]) == {}
  {
  }

  // ----- Counts -----

  function Restrict<V>(m: map<string, V>, keys: set<string>): map<string, V> {
    map k | k in m && k in keys :: m[k]
  }

  /** The merge with all but the keys in `rest`. */
  ghost function CountsMerged(a: Counts, b: Counts, rest: set<string>): Counts {
    MergeCounts(a, Restrict(b, b.Keys - rest))
  }

  lemma CountsMergedStep(a: Counts, b: Counts, rest: set<string>, k: string)
    requires k in rest && rest <= b.Keys
    ensures CountsMerged(a, b, rest - {k}) == Increment(CountsMerged(a, b, rest), k, b[k])
  {
  }

  lemma CountsMergedEnds(a: Counts, b: Counts)
    ensures CountsMerged(a, b, b.Keys) == a && CountsMerged(a, b, {}) == MergeCounts(a, b)
  {
    assert Restrict(b, b.Keys - {}) == b;
  }

  method MergeCountMap(target: Counts, source: Counts) returns (r: Counts)
    ensures r == MergeCounts(target, source)
  {
    CountsMergedEnds(target, source);
    hide MergeCounts, CountsMerged, Increment;
    r := target;
    var rest := source.Keys;
    while rest != {}
      invariant rest <= source.Keys
      invariant r == CountsMerged(target, source, rest)
      decreases |rest|
    {
      var k :| k in rest;
      CountsMergedStep(target, source, rest, k);
      r := Increment(r, k, source[k]);
      rest := rest - {k};
    }
  }

  // ----- Handler timings -----

  /** Adds to the timing of a key: in place when there is one, else as a new object. */
  method JoinHandlerTiming(m: TimingMap, key: string, t: Timing) returns (r: TimingMap)
    requires Separate(m)
    modifies Cells(m)
    ensures Separate(r) && fresh(Cells(r) - Cells(m))
    ensures TimingsOf(r) == Timed(old(TimingsOf(m)), key, t)
  {
    if key in m {
      var existing := m[key];
      existing.count := existing.count + t.count;
      existing.totalMs := existing.totalMs + t.totalMs;
      existing.maxMs := Max(existing.maxMs, t.maxMs);
      return m;
    }
    var added := new HandlerTiming(t);
    r := m[key := added];
  }

  lemma ValuesGrow<V>(m: map<string, V>, k: string, v: V)
    ensures m[k := v].Values <= m.Values + {v}
  {
  }

  method CloneHandlerTimingMap(m: TimingMap) returns (r: TimingMap)
    ensures Separate(r) && fresh(Cells(r))
    ensures TimingsOf(r) == TimingsOf(m)
  {
    r := map[];
    var rest := m.Keys;
    while rest != {}
      invariant rest <= m.Keys && r.Keys == m.Keys - rest
      invariant Separate(r) && fresh(Cells(r))
      invariant forall k | k in r :: r[k].Value() == m[k].Value()
      decreases |rest|
    {
      var k :| k in rest;
      var copy := new HandlerTiming(m[k].Value());
      ValuesGrow(r, k, copy);
      r := r[k := copy];
      rest := rest - {k};
    }
  }

  lemma TimingAt(m: TimingMap, k: string)
    requires k in m
    ensures k in TimingsOf(m) && TimingsOf(m)[k] == m[k].Value()
  {
  }

  ghost function TimingsMerged(a: map<string, Timing>, b: map<string, Timing>, rest: set<string>): map<string, Timing> {
    MergeTimings(a, Restrict(b, b.Keys - rest))
  }

  lemma TimingsMergedStep(a: map<string, Timing>, b: map<string, Timing>, rest: set<string>, k: string)
    requires k in rest && rest <= b.Keys
    ensures TimingsMerged(a, b, rest - {k}) == Timed(TimingsMerged(a, b, rest), k, b[k])
  {
  }

  lemma TimingsMergedEnds(a: map<string, Timing>, b: map<string, Timing>)
    ensures TimingsMerged(a, b, b.Keys) == a && TimingsMerged(a, b, {}) == MergeTimings(a, b)
  {
    assert Restrict(b, b.Keys - {}) == b;
  }

  /** A map's timings are the merge so far. */
  ghost predicate MergedSoFar(r: TimingMap, a: map<string, Timing>, b: map<string, Timing>, rest: set<string>)
    reads Cells(r)
  {
    TimingsOf(r) == TimingsMerged(a, b, rest)
  }

  ghost predicate Holds(m: TimingMap, timings: map<string, Timing>)
    reads Cells(m)
  {
    TimingsOf(m) == timings
  }

  /** One key of the source; its objects are read, never shared. */
  method MergeHandlerTiming(target: TimingMap, source: TimingMap, key: string,
                            ghost into: map<string, Timing>, ghost from: map<string, Timing>, ghost rest: set<string>)
    returns (r: TimingMap)
    requires Separate(target) && Cells(target) !! Cells(source)
    requires Holds(source, from) && MergedSoFar(target, into, from, rest)
    requires key in rest && rest <= source.Keys
    modifies Cells(target)
    ensures Separate(r) && fresh(Cells(r) - Cells(target)) && Cells(r) !! Cells(source)
    ensures Holds(source, from) && MergedSoFar(r, into, from, rest - {key})
  {
    TimingAt(source, key);
    TimingsMergedStep(into, from, rest, key);
    hide Separate, TimingsMerged, Timed;
    r := JoinHandlerTiming(target, key, source[key].Value());
  }

  method MergeHandlerTimingMap(target: TimingMap, source: TimingMap) returns (r: TimingMap)
    requires Separate(target) && Cells(target) !! Cells(source)
    modifies Cells(target)
    ensures Separate(r) && fresh(Cells(r) - Cells(target))
    ensures TimingsOf(r) == MergeTimings(old(TimingsOf(target)), old(TimingsOf(source)))
  {
    ghost var from := TimingsOf(source);
    ghost var into := TimingsOf(target);
    TimingsMergedEnds(into, from);
    r := target;
    var rest := source.Keys;
    while rest != {}
      invariant rest <= source.Keys
      invariant Separate(r) && fresh(Cells(r) - Cells(target)) && Cells(r) !! Cells(source)
      invariant Holds(source, from) && MergedSoFar(r, into, from, rest)
      decreases |rest|
    {
      hide *;
      var k :| k in rest;
      r := MergeHandlerTiming(r, source, k, into, from, rest);
      rest := rest - {k};
    }
  }

  // ----- Buckets -----

  datatype Bucket = Bucket(inboundMessageCounts: Counts, inboundMessageBytes: Counts,
                           inboundMessageHandlerMs: TimingMap, inboundAgentStreamCounts: Counts,
                           inboundAgentStreamByAgentCounts: Counts, inboundBinaryFrameCounts: Counts, endedAt: int)

  function TotalsOf(b: Bucket): Totals
    reads Cells(b.inboundMessageHandlerMs)
  {
    Totals(b.inboundMessageCounts, b.inboundMessageBytes, TimingsOf(b.inboundMessageHandlerMs),
           b.inboundAgentStreamCounts, b.inboundAgentStreamByAgentCounts, b.inboundBinaryFrameCounts)
  }

  ghost function Objects(buckets: seq<Bucket>): set<HandlerTiming> {
    set i, o | 0 <= i < |buckets| && o in Cells(buckets[i].inboundMessageHandlerMs) :: o
  }

  lemma ObjectsSnoc(buckets: seq<Bucket>, b: Bucket)
    ensures Objects(buckets + [b]) == Objects(buckets) + Cells(b.inboundMessageHandlerMs)
  {
    var more := buckets + [b];
    forall o | o in Objects(buckets) + Cells(b.inboundMessageHandlerMs) ensures o in Objects(more) {
      if o in Objects(buckets) {
        var i :| 0 <= i < |buckets| && o in Cells(buckets[i].inboundMessageHandlerMs);
        assert o in Cells(more[i].inboundMessageHandlerMs);
      } else {
        assert o in Cells(more[|buckets|].inboundMessageHandlerMs);
      }
    }
  }

  ghost function EndedOf(b: Bucket): Ended
    reads Cells(b.inboundMessageHandlerMs)
  {
    Ended(TotalsOf(b), b.endedAt)
  }

  ghost function AllEnded(buckets: seq<Bucket>): (r: seq<Ended>)
    reads Objects(buckets)
    ensures |r| == |buckets|
  {
    if buckets == [] then []
    else AllEnded(buckets[..|buckets| - 1]) + [EndedOf(buckets[|buckets| - 1])]
  }

  lemma {:induction false} AllEndedAt(buckets: seq<Bucket>, i: nat)
    requires i < |buckets|
    ensures AllEnded(buckets)[i] == EndedOf(buckets[i])
    ensures AllEnded(buckets)[..i] == AllEnded(buckets[..i])
  {
    if i < |buckets| - 1 {
      AllEndedAt(buckets[..|buckets| - 1], i);
      assert buckets[..|buckets| - 1][..i] == buckets[..i];
    }
  }

  lemma {:induction false} AllEndedTail(buckets: seq<Bucket>)
    requires buckets != []
    ensures AllEnded(buckets[1..]) == AllEnded(buckets)[1..]
    ensures Objects(buckets[1..]) <= Objects(buckets)
  {
    var n := |buckets| - 1;
    if n > 0 {
      AllEndedTail(buckets[..n]);
      assert buckets[..n][1..] == buckets[1..][..n - 1];
    }
  }

  method MergeBucket(into: Bucket, b: Bucket) returns (r: Bucket)
    requires Separate(into.inboundMessageHandlerMs)
    requires Cells(into.inboundMessageHandlerMs) !! Cells(b.inboundMessageHandlerMs)
    modifies Cells(into.inboundMessageHandlerMs)
    ensures Separate(r.inboundMessageHandlerMs)
    ensures fresh(Cells(r.inboundMessageHandlerMs) - Cells(into.inboundMessageHandlerMs))
    ensures TotalsOf(r) == Merge(old(TotalsOf(into)), old(TotalsOf(b)))
  {
    hide MergeCounts, MergeTimings, TimingsOf, Separate;
    var counts := MergeCountMap(into.inboundMessageCounts, b.inboundMessageCounts);
    var bytes := MergeCountMap(into.inboundMessageBytes, b.inboundMessageBytes);
    var timings := MergeHandlerTimingMap(into.inboundMessageHandlerMs, b.inboundMessageHandlerMs);
    var streams := MergeCountMap(into.inboundAgentStreamCounts, b.inboundAgentStreamCounts);
    var agents := MergeCountMap(into.inboundAgentStreamByAgentCounts, b.inboundAgentStreamByAgentCounts);
    var frames := MergeCountMap(into.inboundBinaryFrameCounts, b.inboundBinaryFrameCounts);
    r := Bucket(counts, bytes, timings, streams, agents, frames, into.endedAt);
  }

  class DaemonClientRuntimeMetrics {
    const startedAt: int
    const windowMs: int
    var buckets: seq<Bucket>
    var inboundMessageCounts: Counts
    var inboundMessageBytes: Counts
    var inboundMessageHandlerMs: TimingMap
    var inboundAgentStreamCounts: Counts
    var inboundAgentStreamByAgentCounts: Counts
    var inboundBinaryFrameCounts: Counts

    /** The objects that recording mutates are in no stored bucket. */
    ghost predicate Valid()
      reads this
    {
      Separate(inboundMessageHandlerMs) && Cells(inboundMessageHandlerMs) !! Objects(buckets)
    }

    ghost function Current(): Totals
      reads this, Cells(inboundMessageHandlerMs)
    {
      Totals(inboundMessageCounts, inboundMessageBytes, TimingsOf(inboundMessageHandlerMs),
             inboundAgentStreamCounts, inboundAgentStreamByAgentCounts, inboundBinaryFrameCounts)
    }

    ghost function Contents(): Metrics
      reads this, Cells(inboundMessageHandlerMs), Objects(buckets)
    {
      Metrics(startedAt, windowMs, Current(), AllEnded(buckets))
    }

    constructor (now: int, windowMs: Option<int>)
      ensures Valid() && Contents() == NewMetrics(now, windowMs)
      ensures inboundMessageHandlerMs == map[] && buckets == []
    {
      startedAt := now;
      this.windowMs := if windowMs.Some? && windowMs.value > 0 then windowMs.value else DEFAULT_ROLLING_WINDOW_MS;
      buckets := [];
      inboundMessageCounts, inboundMessageBytes, inboundMessageHandlerMs := map[], map[], map[];
      inboundAgentStreamCounts, inboundAgentStreamByAgentCounts, inboundBinaryFrameCounts := map[], map[], map[];
    }

    method RecordMessage(kind: string, bytes: int, handlerMs: int)
      requires Valid()
      modifies this, Cells(inboundMessageHandlerMs)
      ensures Valid() && fresh(Cells(inboundMessageHandlerMs) - old(Cells(inboundMessageHandlerMs)))
      ensures Contents() == Perform(old(Contents()), Recorded(Message(kind, bytes, handlerMs)))
    {
      hide Increment, Timed, TimingsOf, Separate, AllEnded;
      inboundMessageCounts := Increment(inboundMessageCounts, kind, 1);
      inboundMessageBytes := Increment(inboundMessageBytes, kind, bytes);
      inboundMessageHandlerMs := JoinHandlerTiming(inboundMessageHandlerMs, kind, Timing(1, handlerMs, handlerMs));
    }

    method RecordAgentStream(eventType: string, agentId: string)
      requires Valid()
      modifies this
      ensures Valid() && inboundMessageHandlerMs == old(inboundMessageHandlerMs)
      ensures Contents() == Perform(old(Contents()), Recorded(AgentStream(eventType, agentId)))
    {
      inboundAgentStreamCounts := Increment(inboundAgentStreamCounts, eventType, 1);
      inboundAgentStreamByAgentCounts := Increment(inboundAgentStreamByAgentCounts, agentId, 1);
    }

    method RecordBinaryFrame(kind: string, bytes: int, handlerMs: int)
      requires Valid()
      modifies this, Cells(inboundMessageHandlerMs)
      ensures Valid() && fresh(Cells(inboundMessageHandlerMs) - old(Cells(inboundMessageHandlerMs)))
      ensures Contents() == Perform(old(Contents()), Recorded(BinaryFrame(kind, bytes, handlerMs)))
    {
      hide Increment, Timed, TimingsOf, Separate, AllEnded;
      inboundBinaryFrameCounts := Increment(inboundBinaryFrameCounts, kind, 1);
      inboundMessageBytes := Increment(inboundMessageBytes, BinaryKey(kind), bytes);
      inboundMessageHandlerMs :=
        JoinHandlerTiming(inboundMessageHandlerMs, BinaryKey(kind), Timing(1, handlerMs, handlerMs));
    }

    /** Closes the current bucket, copying its timings, unless nothing that counts happened. */
    method ConsumeCurrentBucket(now: int) returns (b: Option<Bucket>)
      requires Valid()
      modifies this
      ensures buckets == old(buckets) && Valid()
      ensures b.Some? <==> HasActivity(old(Current()))
      ensures b.None? ==> Current() == old(Current()) && inboundMessageHandlerMs == old(inboundMessageHandlerMs)
      ensures b.Some? ==> Current() == EMPTY && inboundMessageHandlerMs == map[]
      ensures b.Some? ==> EndedOf(b.value) == Ended(old(Current()), now)
      ensures b.Some? ==> fresh(Cells(b.value.inboundMessageHandlerMs))
    {
      hide TimingsOf, Objects, Separate;
      EmptyTimings();
      if inboundMessageCounts == map[] && inboundBinaryFrameCounts == map[] {
        return None;
      }
      var timings := CloneHandlerTimingMap(inboundMessageHandlerMs);
      b := Some(Bucket(inboundMessageCounts, inboundMessageBytes, timings, inboundAgentStreamCounts,
                       inboundAgentStreamByAgentCounts, inboundBinaryFrameCounts, now));
      inboundMessageCounts, inboundMessageBytes, inboundMessageHandlerMs := map[], map[], map[];
      inboundAgentStreamCounts, inboundAgentStreamByAgentCounts, inboundBinaryFrameCounts := map[], map[], map[];
    }

    method PruneBuckets(now: int)
      modifies this`buckets
      ensures AllEnded(buckets) == Prune(old(AllEnded(buckets)), now - windowMs)
      ensures Objects(buckets) <= old(Objects(buckets))
    {
      var cutoff := now - windowMs;
      while |buckets| > 0 && buckets[0].endedAt < cutoff
        invariant Prune(AllEnded(buckets), cutoff) == Prune(old(AllEnded(buckets)), cutoff)
        invariant Objects(buckets) <= old(Objects(buckets))
        decreases |buckets|
      {
        AllEndedAt(buckets, 0);
        AllEndedTail(buckets);
        buckets := buckets[1..];
      }
      if |buckets| > 0 {
        AllEndedAt(buckets, 0);
      }
    }

    method MergeStored(aggregate: Bucket, i: nat) returns (r: Bucket)
      requires i < |buckets| && Separate(aggregate.inboundMessageHandlerMs)
      requires Cells(aggregate.inboundMessageHandlerMs) !! Objects(buckets)
      modifies Cells(aggregate.inboundMessageHandlerMs)
      ensures Separate(r.inboundMessageHandlerMs) && Cells(r.inboundMessageHandlerMs) !! Objects(buckets)
      ensures fresh(Cells(r.inboundMessageHandlerMs) - Cells(aggregate.inboundMessageHandlerMs))
      ensures AllEnded(buckets) == old(AllEnded(buckets))
      ensures TotalsOf(r) == Merge(old(TotalsOf(aggregate)), AllEnded(buckets)[i].totals)
    {
      AllEndedAt(buckets, i);
      assert Cells(buckets[i].inboundMessageHandlerMs) <= Objects(buckets);
      hide Merge, TotalsOf, Separate, AllEnded;
      r := MergeBucket(aggregate, buckets[i]);
    }

    /** The buckets are only read: the aggregate is made of new objects. */
    method AggregateBuckets() returns (aggregate: Bucket)
      ensures fresh(Cells(aggregate.inboundMessageHandlerMs))
      ensures TotalsOf(aggregate) == Aggregate(AllEnded(buckets))
    {
      aggregate := Bucket(map[], map[], map[], map[], map[], map[], 0);
      ghost var ended := AllEnded(buckets);
      assert TotalsOf(aggregate) == EMPTY == Aggregate(ended[..0]);
      hide Merge, TotalsOf, Aggregate, AllEnded, Objects;
      for i := 0 to |buckets|
        invariant Separate(aggregate.inboundMessageHandlerMs) && fresh(Cells(aggregate.inboundMessageHandlerMs))
        invariant Cells(aggregate.inboundMessageHandlerMs) !! Objects(buckets)
        invariant TotalsOf(aggregate) == Aggregate(ended[..i])
        invariant ended == AllEnded(buckets)
      {
        hide Separate;
        AggregateStep(ended, i);
        aggregate := MergeStored(aggregate, i);
      }
      assert ended[..|buckets|] == ended;
    }

    /** The first step of a flush: the closed bucket joins the stored ones. */
    method StoreCurrentBucket(now: int)
      requires Valid()
      modifies this
      ensures Valid() && fresh(Objects(buckets) - old(Objects(buckets)))
      ensures Contents() == Consume(old(Contents()), now)
    {
      var bucket := ConsumeCurrentBucket(now);
      hide HasActivity, TotalsOf, Separate, TimingsOf, Objects;
      if bucket.Some? {
        ghost var stored := buckets;
        buckets := buckets + [bucket.value];
        assert buckets[..|stored|] == stored;
        ObjectsSnoc(stored, bucket.value);
      }
    }

    /** Closes the current bucket and drops those that have left the window. */
    method RollBuckets(now: int)
      requires Valid()
      modifies this
      ensures Valid() && fresh(Objects(buckets) - old(Objects(buckets)))
      ensures Contents() == Flushed(old(Contents()), now)
    {
      hide Consume, Prune, TimingsOf, Separate, AllEnded, Objects;
      StoreCurrentBucket(now);
      PruneBuckets(now);
    }

    method Flush(now: int, isFinal: bool) returns (report: Option<Report>)
      requires Valid()
      modifies this
      ensures Valid() && fresh(Objects(buckets) - old(Objects(buckets)))
      ensures Contents() == Flushed(old(Contents()), now)
      ensures report == Reported(old(Contents()), now, isFinal)
    {
      hide Flushed, HasActivity, TotalsOf, TimingsOf, Aggregate, Separate;
      RollBuckets(now);
      var aggregate := AggregateBuckets();
      var age := Max(0, now - startedAt);
      report := None;
      if HasActivity(TotalsOf(aggregate)) || isFinal {
        var covered := if windowMs < age then windowMs else age;
        report := Some(Report(covered, windowMs, |buckets|, isFinal, TotalsOf(aggregate)));
      }
    }
  }

  lemma AggregateStep(ended: seq<Ended>, i: nat)
    requires i < |ended|
    ensures Aggregate(ended[..i + 1]) == Merge(Aggregate(ended[..i]), ended[i].totals)
  {
    assert ended[..i + 1][..i] == ended[..i];
  }
}
