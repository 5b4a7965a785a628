/** The provider-snapshot codec: models that offer the same thinking options share one entry of a
    table. Property lists stand for the fields the codec copies without looking at them. */
module SnapshotCodec {
  import opened Options
  import opened Json

  type Fields = seq<(string, Json)>

  datatype Model = Model(provider: string, fields: Fields, thinkingOptions: Option<seq<Json>>,
                         defaultThinkingOptionId: Option<string>)

  datatype Entry = Entry(provider: string, fields: Fields, models: Option<seq<Model>>)

  datatype ThinkingSet = ThinkingSet(options: seq<Json>, defaultOptionId: Option<string>)

  datatype SnapshotModel = SnapshotModel(fields: Fields, defaultThinkingOptionId: Option<string>,
                                       thinkingSet: Option<nat>)

  datatype SnapshotEntry = SnapshotEntry(provider: string, fields: Fields, models: Option<seq<SnapshotModel>>)

  datatype Snapshot = Snapshot(entries: seq<SnapshotEntry>, thinkingSets: seq<ThinkingSet>)

  // ----- The key of a thinking set -----

  function ThinkingSetJson(s: ThinkingSet): Json {
    Obj([("options", Arr(s.options))]
        + if s.defaultOptionId.Some? then [("defaultOptionId", Str(s.defaultOptionId.value))] else [])
  }

  function Key(s: ThinkingSet): string {
    Stringify(ThinkingSetJson(s))
  }

  lemma SameKeyIffSame(a: ThinkingSet, b: ThinkingSet)
    ensures Key(a) == Key(b) <==> a == b
  {
    var p := ThinkingSetJson(a);
    var q := ThinkingSetJson(b);
    SameTextIffSame(p, q);
    if p == q {
      assert p.members[0] == q.members[0];
      assert |p.members| == |q.members|;
      if a.defaultOptionId.Some? {
        assert p.members[1] == q.members[1];
      }
    }
  }

  // ----- What compaction means -----

  /** The thinking set a model uses, if it offers options. */
  function SetOf(m: Model): Option<ThinkingSet> {
    if m.thinkingOptions.None? then None else Some(ThinkingSet(m.thinkingOptions.value, m.defaultThinkingOptionId))
  }

  /** The thinking sets used by the models, in order, with repetitions. */
  function SetsOf(models: seq<Model>): seq<ThinkingSet>
  {
    if models == [] then []
    else
      var last := SetOf(models[|models| - 1]);
      SetsOf(models[..|models| - 1]) + (if last.Some? then [last.value] else [])
  }

  function SetsIn(e: Entry): seq<ThinkingSet> {
    if e.models.None? then [] else SetsOf(e.models.value)
  }

  function AllSets(entries: seq<Entry>): seq<ThinkingSet>
  {
    if entries == [] then [] else AllSets(entries[..|entries| - 1]) + SetsIn(entries[|entries| - 1])
  }

  /** The distinct members of a sequence in the order of their first occurrence. */
  function Dedup<T(==)>(s: seq<T>): seq<T>
  {
    if s == [] then []
    else
      var before := Dedup(s[..|s| - 1]);
      if s[|s| - 1] in before then before else before + [s[|s| - 1]]
  }

  /** The first place of `x`; the length when there is none. */
  function Place<T(==)>(s: seq<T>, x: T): nat
  {
    if s == [] || s[0] == x then 0 else 1 + Place(s[1..], x)
  }

  /** A model's compact form against a complete table. */
  function Compacted(m: Model, table: seq<ThinkingSet>): SnapshotModel {
    var used := SetOf(m);
    if used.None? then SnapshotModel(m.fields, m.defaultThinkingOptionId, None)
    else SnapshotModel(m.fields, None, Some(Place(table, used.value)))
  }

  function CompactedModels(models: seq<Model>, table: seq<ThinkingSet>): seq<SnapshotModel> {
    seq(|models|, i requires 0 <= i < |models| => Compacted(models[i], table))
  }

  function CompactedEntry(e: Entry, table: seq<ThinkingSet>): SnapshotEntry {
    SnapshotEntry(e.provider, e.fields, if e.models.None? then None else Some(CompactedModels(e.models.value, table)))
  }

  function CompactedEntries(entries: seq<Entry>, table: seq<ThinkingSet>): seq<SnapshotEntry> {
    seq(|entries|, i requires 0 <= i < |entries| => CompactedEntry(entries[i], table))
  }

  /** The reference: the table is the distinct sets in order of first use, and every model is
      rewritten against the complete table. */
  function Compact(entries: seq<Entry>): Snapshot {
    var table := Dedup(AllSets(entries));
    Snapshot(CompactedEntries(entries, table), table)
  }

  // ----- Places and duplicates -----

  lemma {:induction false} PlaceFinds<T>(s: seq<T>, x: T)
    ensures Place(s, x) <= |s|
    ensures Place(s, x) < |s| <==> x in s
    ensures x in s ==> s[Place(s, x)] == x
  {
    if s != [] && s[0] != x {
      PlaceFinds(s[1..], x);
    }
  }

  lemma {:induction false} PlaceIsFirst<T>(s: seq<T>, x: T, i: nat)
    requires i < |s| && s[i] == x
    ensures Place(s, x) <= i
  {
    if s[0] != x {
      PlaceIsFirst(s[1..], x, i - 1);
    }
  }

  lemma {:induction false} PlaceInExtension<T>(s: seq<T>, more: seq<T>, x: T)
    ensures Place(s + more, x) == if x in s then Place(s, x) else |s| + Place(more, x)
  {
    if s == [] {
      assert s + more == more;
    } else if s[0] != x {
      assert (s + more)[1..] == s[1..] + more;
      PlaceInExtension(s[1..], more, x);
    }
  }

  ghost predicate Distinct<T(!new)>(s: seq<T>) {
    forall i, j | 0 <= i < j < |s| :: s[i] != s[j]
  }

  lemma {:induction false} DedupHasSameMembers<T(!new)>(s: seq<T>)
    ensures forall x: T :: x in Dedup(s) <==> x in s
    ensures Distinct(Dedup(s))
  {
    if s != [] {
      DedupHasSameMembers(s[..|s| - 1]);
      assert s == s[..|s| - 1] + [s[|s| - 1]];
    }
  }

  /** Deduplication keeps first-occurrence order. */
  lemma {:induction false} DedupKeepsOrder<T(!new)>(s: seq<T>, i: nat, j: nat)
    requires i < j < |Dedup(s)|
    ensures Place(s, Dedup(s)[i]) < Place(s, Dedup(s)[j])
    decreases |s|
  {
    var n := |s| - 1;
    var before := Dedup(s[..n]);
    assert s == s[..n] + [s[n]];
    DedupHasSameMembers(s[..n]);
    PlaceInExtension(s[..n], [s[n]], Dedup(s)[i]);
    PlaceInExtension(s[..n], [s[n]], Dedup(s)[j]);
    assert Dedup(s)[i] == before[i];
    PlaceFinds(s[..n], before[i]);
    if j < |before| {
      DedupKeepsOrder(s[..n], i, j);
    }
  }

  /** Tables only ever grow at the end. */
  lemma {:induction false} DedupGrows<T>(s: seq<T>, more: seq<T>)
    ensures Dedup(s) <= Dedup(s + more)
    decreases |more|
  {
    if more == [] {
      assert s + more == s;
    } else {
      var n := |more| - 1;
      DedupGrows(s, more[..n]);
      assert (s + more)[..|s + more| - 1] == s + more[..n];
    }
  }

  // ----- Compaction, in place -----

  class ThinkingTable {
    var thinkingSets: seq<ThinkingSet>
    var thinkingSetIndexes: map<string, nat>

    /** The index map holds exactly the keys of the table, each with its place. */
    ghost predicate Valid()
      reads this
    {
      && Distinct(thinkingSets)
      && (forall i | 0 <= i < |thinkingSets| ::
            && Key(thinkingSets[i]) in thinkingSetIndexes
            && thinkingSetIndexes[Key(thinkingSets[i])] == i)
      && (forall k | k in thinkingSetIndexes ::
            && thinkingSetIndexes[k] < |thinkingSets|
            && Key(thinkingSets[thinkingSetIndexes[k]]) == k)
    }

    constructor ()
      ensures Valid() && thinkingSets == []
    {
      thinkingSets, thinkingSetIndexes := [], map[];
    }

    /** The place of a set in the table, which it joins if it is not there. */
    method Intern(s: ThinkingSet) returns (index: nat)
      requires Valid()
      modifies this
      ensures Valid()
      ensures thinkingSets == old(thinkingSets) + if s in old(thinkingSets) then [] else [s]
      ensures index == Place(thinkingSets, s)
    {
      var key := Key(s);
      forall i | 0 <= i < |thinkingSets| ensures Key(thinkingSets[i]) == key <==> thinkingSets[i] == s {
        SameKeyIffSame(thinkingSets[i], s);
      }
      hide Key;
      PlaceFinds(thinkingSets, s);
      if key in thinkingSetIndexes {
        return thinkingSetIndexes[key];
      }
      index := |thinkingSets|;
      PlaceInExtension(thinkingSets, [s], s);
      thinkingSets := thinkingSets + [s];
      thinkingSetIndexes := thinkingSetIndexes[key := index];
    }

    method CompactModel(m: Model) returns (c: SnapshotModel)
      requires Valid()
      modifies this
      ensures Valid()
      ensures var used := SetOf(m);
              thinkingSets == old(thinkingSets)
                              + if used.None? || used.value in old(thinkingSets) then [] else [used.value]
      ensures c == Compacted(m, thinkingSets)
    {
      if m.thinkingOptions.None? {
        return SnapshotModel(m.fields, m.defaultThinkingOptionId, None);
      }
      var index := Intern(ThinkingSet(m.thinkingOptions.value, m.defaultThinkingOptionId));
      return SnapshotModel(m.fields, None, Some(index));
    }
  }

  lemma PlaceInLarger<T>(s: seq<T>, larger: seq<T>, x: T)
    requires s <= larger && x in s
    ensures Place(larger, x) == Place(s, x)
  {
    PlaceInExtension(s, larger[|s|..], x);
    assert s + larger[|s|..] == larger;
  }

  /** What is already compacted stays right when the table grows. */
  lemma CompactedAgain(models: seq<Model>, table: seq<ThinkingSet>, larger: seq<ThinkingSet>)
    requires table <= larger && forall x | x in SetsOf(models) :: x in table
    ensures CompactedModels(models, larger) == CompactedModels(models, table)
  {
    forall i | 0 <= i < |models| ensures Compacted(models[i], larger) == Compacted(models[i], table) {
      UsesItsSets(models, i);
      if SetOf(models[i]).Some? {
        PlaceInLarger(table, larger, SetOf(models[i]).value);
      }
    }
  }

  lemma CompactedSnoc(models: seq<Model>, i: nat, table: seq<ThinkingSet>)
    requires i < |models|
    ensures CompactedModels(models[..i + 1], table)
            == CompactedModels(models[..i], table) + [Compacted(models[i], table)]
  {
    hide Compacted;
  }

  lemma CompactedEntriesSnoc(entries: seq<Entry>, i: nat, table: seq<ThinkingSet>)
    requires i < |entries|
    ensures CompactedEntries(entries[..i + 1], table)
            == CompactedEntries(entries[..i], table) + [CompactedEntry(entries[i], table)]
  {
    hide CompactedEntry;
  }

  lemma {:induction false} UsesItsSets(models: seq<Model>, i: nat)
    requires i < |models|
    ensures SetOf(models[i]).Some? ==> SetOf(models[i]).value in SetsOf(models)
  {
    if i < |models| - 1 {
      UsesItsSets(models[..|models| - 1], i);
    }
  }

  lemma {:induction false} EntriesUseTheirSets(entries: seq<Entry>, i: nat)
    requires i < |entries|
    ensures forall x | x in SetsIn(entries[i]) :: x in AllSets(entries)
  {
    if i < |entries| - 1 {
      EntriesUseTheirSets(entries[..|entries| - 1], i);
    }
  }

  lemma EntriesCompactedAgain(entries: seq<Entry>, table: seq<ThinkingSet>, larger: seq<ThinkingSet>)
    requires table <= larger && forall x | x in AllSets(entries) :: x in table
    ensures CompactedEntries(entries, larger) == CompactedEntries(entries, table)
  {
    forall i | 0 <= i < |entries|
      ensures CompactedEntry(entries[i], larger) == CompactedEntry(entries[i], table)
    {
      EntriesUseTheirSets(entries, i);
      if entries[i].models.Some? {
        CompactedAgain(entries[i].models.value, table, larger);
      }
    }
  }

  lemma DedupSnoc<T>(s: seq<T>, x: T)
    ensures Dedup(s + [x]) == Dedup(s) + if x in Dedup(s) then [] else [x]
  {
    assert (s + [x])[..|s|] == s;
  }

  lemma SetsSnoc(models: seq<Model>, i: nat)
    requires i < |models|
    ensures SetsOf(models[..i + 1])
            == SetsOf(models[..i]) + if SetOf(models[i]).Some? then [SetOf(models[i]).value] else []
  {
    assert models[..i + 1][..i] == models[..i];
  }

  lemma TableStep(before: seq<ThinkingSet>, s: seq<ThinkingSet>, used: Option<ThinkingSet>)
    ensures Dedup(before + (s + if used.Some? then [used.value] else []))
            == Dedup(before + s) + if used.None? || used.value in Dedup(before + s) then [] else [used.value]
  {
    if used.Some? {
      DedupSnoc(before + s, used.value);
      assert before + (s + [used.value]) == before + s + [used.value];
    } else {
      assert before + (s + []) == before + s;
    }
  }

  lemma ModelsStep(models: seq<Model>, i: nat, before: seq<ThinkingSet>, table: seq<ThinkingSet>)
    requires i < |models|
    requires var was := Dedup(before + SetsOf(models[..i]));
             var used := SetOf(models[i]);
             table == was + if used.None? || used.value in was then [] else [used.value]
    ensures table == Dedup(before + SetsOf(models[..i + 1]))
    ensures CompactedModels(models[..i + 1], table)
            == CompactedModels(models[..i], Dedup(before + SetsOf(models[..i]))) + [Compacted(models[i], table)]
  {
    var was := Dedup(before + SetsOf(models[..i]));
    SetsSnoc(models, i);
    TableStep(before, SetsOf(models[..i]), SetOf(models[i]));
    DedupHasSameMembers(before + SetsOf(models[..i]));
    hide SetOf, SetsOf, Dedup, Compacted, CompactedModels;
    CompactedAgain(models[..i], was, table);
    CompactedSnoc(models, i, table);
  }

  method CompactModels(table: ThinkingTable, models: seq<Model>, ghost before: seq<ThinkingSet>)
    returns (done: seq<SnapshotModel>)
    requires table.Valid() && table.thinkingSets == Dedup(before)
    modifies table
    ensures table.Valid() && table.thinkingSets == Dedup(before + SetsOf(models))
    ensures done == CompactedModels(models, table.thinkingSets)
  {
    done := [];
    assert before + SetsOf(models[..0]) == before;
    for i := 0 to |models|
      invariant table.Valid() && table.thinkingSets == Dedup(before + SetsOf(models[..i]))
      invariant done == CompactedModels(models[..i], table.thinkingSets)
    {
      hide SetOf, SetsOf, Dedup, Compacted, CompactedModels, ThinkingTable.Valid;
      var c := table.CompactModel(models[i]);
      ModelsStep(models, i, before, table.thinkingSets);
      done := done + [c];
    }
    assert models[..|models|] == models;
  }

  method CompactEntry(table: ThinkingTable, e: Entry, ghost before: seq<ThinkingSet>) returns (c: SnapshotEntry)
    requires table.Valid() && table.thinkingSets == Dedup(before)
    modifies table
    ensures table.Valid() && table.thinkingSets == Dedup(before + SetsIn(e))
    ensures c == CompactedEntry(e, table.thinkingSets)
  {
    if e.models.None? {
      assert before + [] == before;
      return SnapshotEntry(e.provider, e.fields, None);
    }
    var models := CompactModels(table, e.models.value, before);
    return SnapshotEntry(e.provider, e.fields, Some(models));
  }

  lemma EntriesStep(entries: seq<Entry>, i: nat, table: seq<ThinkingSet>)
    requires i < |entries| && table == Dedup(AllSets(entries[..i]) + SetsIn(entries[i]))
    ensures table == Dedup(AllSets(entries[..i + 1]))
    ensures CompactedEntries(entries[..i + 1], table)
            == CompactedEntries(entries[..i], Dedup(AllSets(entries[..i]))) + [CompactedEntry(entries[i], table)]
  {
    var before := AllSets(entries[..i]);
    var was := Dedup(before);
    assert AllSets(entries[..i + 1]) == before + SetsIn(entries[i]) by {
      assert entries[..i + 1][..i] == entries[..i];
    }
    hide AllSets, SetsIn, CompactedEntry;
    DedupGrows(before, SetsIn(entries[i]));
    DedupHasSameMembers(before);
    hide Dedup;
    hide CompactedEntries;
    EntriesCompactedAgain(entries[..i], was, table);
    CompactedEntriesSnoc(entries, i, table);
  }

  method CompactProviderSnapshot(entries: seq<Entry>) returns (s: Snapshot)
    ensures s == Compact(entries)
  {
    var table := new ThinkingTable();
    var done: seq<SnapshotEntry> := [];
    for i := 0 to |entries|
      invariant table.Valid() && table.thinkingSets == Dedup(AllSets(entries[..i]))
      invariant done == CompactedEntries(entries[..i], table.thinkingSets)
    {
      hide Dedup, AllSets, SetsIn, CompactedEntry, CompactedEntries, ThinkingTable.Valid;
      var c := CompactEntry(table, entries[i], AllSets(entries[..i]));
      EntriesStep(entries, i, table.thinkingSets);
      done := done + [c];
    }
    assert entries[..|entries|] == entries;
    return Snapshot(done, table.thinkingSets);
  }

  // ----- Expansion -----

  predicate InTable(m: SnapshotModel, table: seq<ThinkingSet>) {
    m.thinkingSet.Some? ==> m.thinkingSet.value < |table|
  }

  /** The model a compact one stands for. */
  function Expanded(provider: string, m: SnapshotModel, table: seq<ThinkingSet>): Model
    requires InTable(m, table)
  {
    if m.thinkingSet.None? then Model(provider, m.fields, None, m.defaultThinkingOptionId)
    else
      var set_ := table[m.thinkingSet.value];
      Model(provider, m.fields, Some(set_.options),
            if set_.defaultOptionId.Some? then set_.defaultOptionId else m.defaultThinkingOptionId)
  }

  /** A missing index is an error that names it. */
  function ExpandModel(provider: string, m: SnapshotModel, table: seq<ThinkingSet>): Result<Model, nat> {
    if InTable(m, table) then Ok(Expanded(provider, m, table)) else Err(m.thinkingSet.value)
  }

  function ExpandModels(provider: string, models: seq<SnapshotModel>, table: seq<ThinkingSet>)
    : Result<seq<Model>, nat>
  {
    if models == [] then Ok([])
    else
      match ExpandModels(provider, models[..|models| - 1], table)
      case Err(k) => Err(k)
      case Ok(done) =>
        match ExpandModel(provider, models[|models| - 1], table)
        case Err(k) => Err(k)
        case Ok(m) => Ok(done + [m])
  }

  function ExpandEntry(e: SnapshotEntry, table: seq<ThinkingSet>): Result<Entry, nat> {
    if e.models.None? then Ok(Entry(e.provider, e.fields, None))
    else
      match ExpandModels(e.provider, e.models.value, table)
      case Err(k) => Err(k)
      case Ok(ms) => Ok(Entry(e.provider, e.fields, Some(ms)))
  }

  function ExpandEntries(entries: seq<SnapshotEntry>, table: seq<ThinkingSet>): Result<seq<Entry>, nat>
  {
    if entries == [] then Ok([])
    else
      match ExpandEntries(entries[..|entries| - 1], table)
      case Err(k) => Err(k)
      case Ok(done) =>
        match ExpandEntry(entries[|entries| - 1], table)
        case Err(k) => Err(k)
        case Ok(e) => Ok(done + [e])
  }

  function Expand(s: Snapshot): Result<seq<Entry>, nat> {
    ExpandEntries(s.entries, s.thinkingSets)
  }

  // ----- When expansion succeeds -----

  ghost predicate ModelsInTable(models: seq<SnapshotModel>, table: seq<ThinkingSet>) {
    forall j | 0 <= j < |models| :: InTable(models[j], table)
  }

  ghost predicate EntryInTable(e: SnapshotEntry, table: seq<ThinkingSet>) {
    e.models.Some? ==> ModelsInTable(e.models.value, table)
  }

  ghost predicate EntriesInTable(entries: seq<SnapshotEntry>, table: seq<ThinkingSet>) {
    forall i | 0 <= i < |entries| :: EntryInTable(entries[i], table)
  }

  ghost predicate AllInTable(s: Snapshot) {
    EntriesInTable(s.entries, s.thinkingSets)
  }

  /** Some model refers to place `k`, which is not in the table. */
  ghost predicate Misses(models: seq<SnapshotModel>, table: seq<ThinkingSet>, k: nat) {
    k >= |table| && exists j :: 0 <= j < |models| && models[j].thinkingSet == Some(k)
  }

  ghost predicate EntryMisses(e: SnapshotEntry, table: seq<ThinkingSet>, k: nat) {
    e.models.Some? && Misses(e.models.value, table, k)
  }

  ghost function ExpandedModels(provider: string, models: seq<SnapshotModel>, table: seq<ThinkingSet>): seq<Model>
    requires ModelsInTable(models, table)
  {
    seq(|models|, j requires 0 <= j < |models| => Expanded(provider, models[j], table))
  }

  ghost function ExpandedEntry(e: SnapshotEntry, table: seq<ThinkingSet>): Entry
    requires EntryInTable(e, table)
  {
    Entry(e.provider, e.fields,
          if e.models.None? then None else Some(ExpandedModels(e.provider, e.models.value, table)))
  }

  ghost function ExpandedEntries(entries: seq<SnapshotEntry>, table: seq<ThinkingSet>): seq<Entry>
    requires EntriesInTable(entries, table)
  {
    seq(|entries|, i requires 0 <= i < |entries| => ExpandedEntry(entries[i], table))
  }

  lemma {:induction false} ModelsExpandIff(provider: string, models: seq<SnapshotModel>, table: seq<ThinkingSet>)
    ensures ExpandModels(provider, models, table).Err? ==>
              Misses(models, table, ExpandModels(provider, models, table).error)
    ensures ExpandModels(provider, models, table).Ok? <==> ModelsInTable(models, table)
    ensures ModelsInTable(models, table) ==>
              ExpandModels(provider, models, table) == Ok(ExpandedModels(provider, models, table))
  {
    if models == [] {
      assert ExpandedModels(provider, models, table) == [];
    } else {
      var n := |models| - 1;
      ModelsExpandIff(provider, models[..n], table);
      if ModelsInTable(models, table) {
        assert ExpandedModels(provider, models, table)
            == ExpandedModels(provider, models[..n], table) + [Expanded(provider, models[n], table)];
      } else {
        assert models == models[..n] + [models[n]];
        MissesLater(models, table);
      }
    }
  }

  lemma MissesLater(models: seq<SnapshotModel>, table: seq<ThinkingSet>)
    requires models != []
    ensures forall k: nat | Misses(models[..|models| - 1], table, k) :: Misses(models, table, k)
    ensures var last := models[|models| - 1]; !InTable(last, table) ==> Misses(models, table, last.thinkingSet.value)
  {
    var n := |models| - 1;
    forall k: nat | Misses(models[..n], table, k) ensures Misses(models, table, k) {
      var j :| 0 <= j < n && models[..n][j].thinkingSet == Some(k);
      assert models[j].thinkingSet == Some(k);
    }
    assert models[n].thinkingSet.Some? ==> models[n].thinkingSet == Some(models[n].thinkingSet.value);
  }

  lemma EntryExpandsIff(e: SnapshotEntry, table: seq<ThinkingSet>)
    ensures ExpandEntry(e, table).Err? ==> EntryMisses(e, table, ExpandEntry(e, table).error)
    ensures ExpandEntry(e, table).Ok? <==> EntryInTable(e, table)
    ensures EntryInTable(e, table) ==> ExpandEntry(e, table) == Ok(ExpandedEntry(e, table))
  {
    if e.models.Some? {
      ModelsExpandIff(e.provider, e.models.value, table);
    }
  }

  lemma {:induction false} EntriesExpandIff(entries: seq<SnapshotEntry>, table: seq<ThinkingSet>)
    ensures ExpandEntries(entries, table).Err? ==>
              exists i :: 0 <= i < |entries| && EntryMisses(entries[i], table, ExpandEntries(entries, table).error)
    ensures ExpandEntries(entries, table).Ok? <==> EntriesInTable(entries, table)
    ensures EntriesInTable(entries, table) ==> ExpandEntries(entries, table) == Ok(ExpandedEntries(entries, table))
  {
    if entries == [] {
      assert ExpandedEntries(entries, table) == [];
    } else {
      var n := |entries| - 1;
      EntriesExpandIff(entries[..n], table);
      EntryExpandsIff(entries[n], table);
      hide ExpandEntry, ExpandedEntry, EntryInTable, EntryMisses;
      if EntriesInTable(entries, table) {
        assert EntriesInTable(entries[..n], table);
        assert ExpandedEntries(entries, table)
            == ExpandedEntries(entries[..n], table) + [ExpandedEntry(entries[n], table)];
      } else {
        assert entries == entries[..n] + [entries[n]];
        assert !EntriesInTable(entries[..n], table) || !EntryInTable(entries[n], table);
      }
    }
  }

  /** Expansion fails exactly when some model refers outside the table; the error is the place to which
      some model refers. */
  lemma ExpandsIff(s: Snapshot)
    ensures Expand(s).Err? ==>
              exists i :: 0 <= i < |s.entries| && EntryMisses(s.entries[i], s.thinkingSets, Expand(s).error)
    ensures Expand(s).Ok? <==> AllInTable(s)
    ensures AllInTable(s) ==> Expand(s) == Ok(ExpandedEntries(s.entries, s.thinkingSets))
  {
    EntriesExpandIff(s.entries, s.thinkingSets);
  }

  // ----- The round trip -----

  function OwnProvider(e: Entry): Entry {
    if e.models.None? then e
    else
      var ms := e.models.value;
      e.(models := Some(seq(|ms|, j requires 0 <= j < |ms| => ms[j].(provider := e.provider))))
  }

  /** Every model takes the provider of its entry. */
  function OwnProviders(entries: seq<Entry>): seq<Entry> {
    seq(|entries|, i requires 0 <= i < |entries| => OwnProvider(entries[i]))
  }

  ghost predicate ProvidersAgree(entries: seq<Entry>) {
    forall i, j | 0 <= i < |entries| && entries[i].models.Some? && 0 <= j < |entries[i].models.value| ::
      entries[i].models.value[j].provider == entries[i].provider
  }

  lemma CompactedModelExpands(provider: string, m: Model, table: seq<ThinkingSet>)
    requires SetOf(m).Some? ==> SetOf(m).value in table
    ensures var c := Compacted(m, table);
            InTable(c, table) && Expanded(provider, c, table) == m.(provider := provider)
  {
    if SetOf(m).Some? {
      PlaceFinds(table, SetOf(m).value);
    }
  }

  lemma CompactedEntryExpands(e: Entry, table: seq<ThinkingSet>)
    requires forall x | x in SetsIn(e) :: x in table
    ensures EntryInTable(CompactedEntry(e, table), table)
    ensures ExpandedEntry(CompactedEntry(e, table), table) == OwnProvider(e)
  {
    if e.models.Some? {
      var ms := e.models.value;
      forall j | 0 <= j < |ms|
        ensures InTable(Compacted(ms[j], table), table)
        ensures Expanded(e.provider, Compacted(ms[j], table), table) == ms[j].(provider := e.provider)
      {
        UsesItsSets(ms, j);
        CompactedModelExpands(e.provider, ms[j], table);
      }
      hide Compacted, Expanded, SetsOf, InTable;
      assert ModelsInTable(CompactedModels(ms, table), table);
      assert ExpandedModels(e.provider, CompactedModels(ms, table), table) == OwnProvider(e).models.value;
    }
  }

  /** Compaction loses nothing but the providers of the models, which it takes from their entries. */
  lemma CompactExpands(entries: seq<Entry>)
    ensures Expand(Compact(entries)) == Ok(OwnProviders(entries))
  {
    var s := Compact(entries);
    var table := s.thinkingSets;
    DedupHasSameMembers(AllSets(entries));
    forall i | 0 <= i < |entries|
      ensures EntryInTable(s.entries[i], table) && ExpandedEntry(s.entries[i], table) == OwnProvider(entries[i])
    {
      EntriesUseTheirSets(entries, i);
      CompactedEntryExpands(entries[i], table);
    }
    ExpandsIff(s);
    hide CompactedEntry, ExpandedEntry, OwnProvider, EntryInTable, Dedup, AllSets;
    assert ExpandedEntries(s.entries, table) == OwnProviders(entries);
  }

  /** The round trip is exact exactly when the providers agree to begin with. */
  lemma RoundTripIff(entries: seq<Entry>)
    ensures Expand(Compact(entries)) == Ok(entries) <==> ProvidersAgree(entries)
  {
    CompactExpands(entries);
    if ProvidersAgree(entries) {
      forall i | 0 <= i < |entries| ensures OwnProvider(entries[i]) == entries[i] {
        if entries[i].models.Some? {
          assert OwnProvider(entries[i]).models.value == entries[i].models.value;
        }
      }
      hide OwnProvider;
      assert OwnProviders(entries) == entries;
    } else {
      var i, j :| 0 <= i < |entries| && entries[i].models.Some? && 0 <= j < |entries[i].models.value|
                  && entries[i].models.value[j].provider != entries[i].provider;
      assert OwnProviders(entries)[i].models.value[j].provider == entries[i].provider;
    }
  }

  // ----- The table is canonical -----

  /** Distinct sets, each used by some model, in the order in which the models first use them. */
  lemma TableIsCanonical(entries: seq<Entry>)
    ensures var table := Compact(entries).thinkingSets;
            && Distinct(table)
            && (forall x :: x in table <==> x in AllSets(entries))
            && (forall i, j | 0 <= i < j < |table| ::
                  Place(AllSets(entries), table[i]) < Place(AllSets(entries), table[j]))
  {
    var used := AllSets(entries);
    DedupHasSameMembers(used);
    forall i, j | 0 <= i < j < |Dedup(used)| ensures Place(used, Dedup(used)[i]) < Place(used, Dedup(used)[j]) {
      DedupKeepsOrder(used, i, j);
    }
  }

  /** Two models of a snapshot refer to the same place, or to none, exactly when they use the same set. */
  lemma SharedIffEqual(entries: seq<Entry>, i: nat, j: nat, k: nat, l: nat)
    requires i < |entries| && entries[i].models.Some? && j < |entries[i].models.value|
    requires k < |entries| && entries[k].models.Some? && l < |entries[k].models.value|
    ensures var s := Compact(entries);
            s.entries[i].models.value[j].thinkingSet == s.entries[k].models.value[l].thinkingSet
            <==> SetOf(entries[i].models.value[j]) == SetOf(entries[k].models.value[l])
  {
    var table := Compact(entries).thinkingSets;
    var a, b := entries[i].models.value[j], entries[k].models.value[l];
    DedupHasSameMembers(AllSets(entries));
    EntriesUseTheirSets(entries, i);
    EntriesUseTheirSets(entries, k);
    UsesItsSets(entries[i].models.value, j);
    UsesItsSets(entries[k].models.value, l);
    if SetOf(a).Some? {
      PlaceFinds(table, SetOf(a).value);
    }
    if SetOf(b).Some? {
      PlaceFinds(table, SetOf(b).value);
    }
  }

  lemma {:induction false} AllSetsConcat(a: seq<Entry>, b: seq<Entry>)
    ensures AllSets(a + b) == AllSets(a) + AllSets(b)
  {
    hide SetsIn;
    if b == [] {
      assert a + b == a;
    } else {
      var n := |b| - 1;
      AllSetsConcat(a, b[..n]);
      assert (a + b)[..|a + b| - 1] == a + b[..n];
    }
  }

  /** What later entries add never changes what came before: neither the table nor the entries. */
  lemma EarlierIsStable(a: seq<Entry>, b: seq<Entry>)
    ensures Compact(a).thinkingSets <= Compact(a + b).thinkingSets
    ensures Compact(a).entries <= Compact(a + b).entries
  {
    AllSetsConcat(a, b);
    DedupGrows(AllSets(a), AllSets(b));
    DedupHasSameMembers(AllSets(a));
    hide AllSets, Dedup, CompactedEntry;
    var table := Compact(a + b).thinkingSets;
    EntriesCompactedAgain(a, Compact(a).thinkingSets, table);
    assert CompactedEntries(a + b, table)[..|a|] == CompactedEntries(a, table);
  }

  // ----- Which snapshots are compact forms -----

  /** The sets the compact models refer to, in order, with repetitions. */
  function UsedBy(models: seq<SnapshotModel>, table: seq<ThinkingSet>): seq<ThinkingSet>
  {
    if models == [] then []
    else
      var last := models[|models| - 1].thinkingSet;
      UsedBy(models[..|models| - 1], table)
      + (if last.Some? && last.value < |table| then [table[last.value]] else [])
  }

  function UsedIn(e: SnapshotEntry, table: seq<ThinkingSet>): seq<ThinkingSet> {
    if e.models.None? then [] else UsedBy(e.models.value, table)
  }

  function AllUsed(entries: seq<SnapshotEntry>, table: seq<ThinkingSet>): seq<ThinkingSet>
  {
    if entries == [] then []
    else AllUsed(entries[..|entries| - 1], table) + UsedIn(entries[|entries| - 1], table)
  }

  ghost predicate TidyModels(models: seq<SnapshotModel>) {
    forall j | 0 <= j < |models| :: models[j].thinkingSet.Some? ==> models[j].defaultThinkingOptionId.None?
  }

  ghost predicate TidyEntry(e: SnapshotEntry) {
    e.models.Some? ==> TidyModels(e.models.value)
  }

  /** No reference is missing, a model that refers to a set has no default of its own, and the
      table is the used sets in order of first use. */
  ghost predicate Canonical(s: Snapshot) {
    && AllInTable(s)
    && (forall i | 0 <= i < |s.entries| :: TidyEntry(s.entries[i]))
    && s.thinkingSets == Dedup(AllUsed(s.entries, s.thinkingSets))
  }

  /** Compacting the models of an expanded entry against the same table gives them back. */
  lemma ExpandedModelCompacts(provider: string, c: SnapshotModel, table: seq<ThinkingSet>)
    requires InTable(c, table) && Distinct(table)
    requires c.thinkingSet.Some? ==> c.defaultThinkingOptionId.None?
    ensures var m := Expanded(provider, c, table);
            && SetOf(m) == (if c.thinkingSet.None? then None else Some(table[c.thinkingSet.value]))
            && Compacted(m, table) == c
  {
    if c.thinkingSet.Some? {
      PlaceFinds(table, table[c.thinkingSet.value]);
    }
  }

  lemma {:induction false} ModelsCompactBack(provider: string, models: seq<SnapshotModel>, table: seq<ThinkingSet>)
    requires ModelsInTable(models, table) && TidyModels(models) && Distinct(table)
    ensures var ms := ExpandedModels(provider, models, table);
            SetsOf(ms) == UsedBy(models, table) && CompactedModels(ms, table) == models
  {
    var ms := ExpandedModels(provider, models, table);
    if models != [] {
      var n := |models| - 1;
      ModelsCompactBack(provider, models[..n], table);
      ExpandedModelCompacts(provider, models[n], table);
      hide Expanded, Compacted, SetOf;
      assert ms[..n] == ExpandedModels(provider, models[..n], table);
      assert CompactedModels(ms, table) == CompactedModels(ms[..n], table) + [Compacted(ms[n], table)];
    }
  }

  lemma EntryCompactsBack(e: SnapshotEntry, table: seq<ThinkingSet>)
    requires EntryInTable(e, table) && TidyEntry(e) && Distinct(table)
    ensures var x := ExpandedEntry(e, table); SetsIn(x) == UsedIn(e, table) && CompactedEntry(x, table) == e
  {
    if e.models.Some? {
      ModelsCompactBack(e.provider, e.models.value, table);
    }
  }

  lemma {:induction false} EntriesCompactBack(entries: seq<SnapshotEntry>, table: seq<ThinkingSet>)
    requires EntriesInTable(entries, table) && forall i | 0 <= i < |entries| :: TidyEntry(entries[i])
    requires Distinct(table)
    ensures var xs := ExpandedEntries(entries, table);
            AllSets(xs) == AllUsed(entries, table) && CompactedEntries(xs, table) == entries
  {
    var xs := ExpandedEntries(entries, table);
    if entries != [] {
      var n := |entries| - 1;
      EntriesCompactBack(entries[..n], table);
      EntryCompactsBack(entries[n], table);
      hide ExpandedEntry, CompactedEntry, EntryInTable, TidyEntry, SetsIn, UsedIn;
      assert xs[..n] == ExpandedEntries(entries[..n], table);
      assert CompactedEntries(xs, table) == CompactedEntries(xs[..n], table) + [CompactedEntry(xs[n], table)];
    }
  }

  lemma {:induction false} CompactedUses(models: seq<Model>, table: seq<ThinkingSet>)
    requires forall x | x in SetsOf(models) :: x in table
    ensures UsedBy(CompactedModels(models, table), table) == SetsOf(models)
    ensures TidyModels(CompactedModels(models, table))
  {
    if models != [] {
      var n := |models| - 1;
      CompactedUses(models[..n], table);
      UsesItsSets(models, n);
      if SetOf(models[n]).Some? {
        PlaceFinds(table, SetOf(models[n]).value);
      }
      assert CompactedModels(models, table)[..n] == CompactedModels(models[..n], table);
    }
  }

  lemma CompactedEntryUses(e: Entry, table: seq<ThinkingSet>)
    requires forall x | x in SetsIn(e) :: x in table
    ensures UsedIn(CompactedEntry(e, table), table) == SetsIn(e) && TidyEntry(CompactedEntry(e, table))
  {
    if e.models.Some? {
      CompactedUses(e.models.value, table);
    }
  }

  lemma {:induction false} CompactedEntriesUse(entries: seq<Entry>, table: seq<ThinkingSet>)
    requires forall x | x in AllSets(entries) :: x in table
    ensures AllUsed(CompactedEntries(entries, table), table) == AllSets(entries)
    ensures forall i | 0 <= i < |entries| :: TidyEntry(CompactedEntry(entries[i], table))
  {
    if entries != [] {
      var n := |entries| - 1;
      CompactedEntriesUse(entries[..n], table);
      CompactedEntryUses(entries[n], table);
      hide TidyEntry, UsedIn, SetsIn, CompactedEntry;
      assert CompactedEntries(entries, table)[..n] == CompactedEntries(entries[..n], table);
    }
  }

  lemma CompactIsCanonical(entries: seq<Entry>)
    ensures Canonical(Compact(entries))
  {
    var s := Compact(entries);
    DedupHasSameMembers(AllSets(entries));
    CompactedEntriesUse(entries, s.thinkingSets);
    CompactExpands(entries);
    ExpandsIff(s);
  }

  /** A snapshot survives expansion and compaction exactly when it is canonical. */
  lemma CompactInvertsExpandIff(s: Snapshot)
    ensures (Expand(s).Ok? && Compact(Expand(s).value) == s) <==> Canonical(s)
  {
    ExpandsIff(s);
    if Canonical(s) {
      DedupHasSameMembers(AllUsed(s.entries, s.thinkingSets));
      EntriesCompactBack(s.entries, s.thinkingSets);
    } else if Expand(s).Ok? {
      CompactIsCanonical(Expand(s).value);
    }
  }

  /** Compacting again what was expanded changes nothing. */
  lemma CompactIsIdempotent(entries: seq<Entry>)
    ensures Expand(Compact(entries)).Ok?
    ensures Compact(Expand(Compact(entries)).value) == Compact(entries)
  {
    CompactIsCanonical(entries);
    CompactInvertsExpandIff(Compact(entries));
  }
}
