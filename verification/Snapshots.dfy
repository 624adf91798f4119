/** Snapshots: the canonical tuple of lots, and the operations that build and merge them. */
module Snapshots {
  import opened Basics
  import opened LotKeys
  import opened Lots
  import opened LotTables
  import opened Sorting

  /** What a household had, as far as the system knew at `asOf`. */
  datatype InventorySnapshot = InventorySnapshot(household: Uuid, asOf: Instant, lots: seq<LotState>)

  // ------------------------------------------------------------ canonical order

  predicate LotLess(a: LotState, b: LotState) {
    KeyLess(a.key, b.key)
  }

  predicate DistinctKeys(lots: seq<LotState>) {
    forall i, j :: 0 <= i < j < |lots| ==> lots[i].key != lots[j].key
  }

  /** Strictly ascending by sort key. */
  ghost predicate Canonical(lots: seq<LotState>) {
    Ascending(lots, LotLess)
  }

  lemma LotOrder()
    ensures StrictOrder(LotLess)
  {
    forall x: LotState
      ensures !LotLess(x, x)
    {
      KeyOrder(x.key, x.key, x.key);
    }
    forall x: LotState, y: LotState, z: LotState | LotLess(x, y) && LotLess(y, z)
      ensures LotLess(x, z)
    {
      KeyOrder(x.key, y.key, z.key);
    }
  }

  lemma LotsCompareByKey()
    ensures WeakOrder(LotLess)
  {
    LotOrder();
    forall x: LotState, y: LotState, z: LotState | !LotLess(x, y) && !LotLess(y, z)
      ensures !LotLess(x, z)
    {
      KeyOrder(x.key, y.key, z.key);
      KeyOrder(y.key, z.key, x.key);
      KeyOrder(x.key, z.key, y.key);
      KeyOrder(z.key, y.key, x.key);
    }
  }

  lemma DistinctHasNoTies(lots: seq<LotState>)
    requires DistinctKeys(lots)
    ensures NoTies(lots, LotLess)
  {
    forall i, j | 0 <= i < j < |lots|
      ensures LotLess(lots[i], lots[j]) || LotLess(lots[j], lots[i])
    {
      KeyOrder(lots[i].key, lots[j].key, lots[j].key);
    }
  }

  lemma CanonicalIsDistinct(lots: seq<LotState>)
    requires Canonical(lots)
    ensures DistinctKeys(lots)
  {
    forall i, j | 0 <= i < j < |lots|
      ensures lots[i].key != lots[j].key
    {
      KeyOrder(lots[i].key, lots[j].key, lots[j].key);
    }
  }

  /** `sorted(lots, key=sort_key)`, stable as Python's sort is. */
  function SortLots(lots: seq<LotState>): seq<LotState> {
    Sort(lots, LotLess)
  }

  lemma SortCanonical(lots: seq<LotState>)
    requires DistinctKeys(lots)
    ensures Canonical(SortLots(lots)) && DistinctKeys(SortLots(lots))
    ensures forall x :: x in SortLots(lots) <==> x in lots
  {
    LotOrder();
    DistinctHasNoTies(lots);
    SortAscending(lots, LotLess);
    CanonicalIsDistinct(SortLots(lots));
  }

  // ------------------------------------------------------------ tables and tuples

  /** `{lot.key: lot for lot in lots}`: a later lot replaces an earlier one with the same key. */
  function TableOf(lots: seq<LotState>): LotTable {
    if lots == [] then map[]
    else TableOf(lots[..|lots| - 1])[lots[|lots| - 1].key := lots[|lots| - 1].totals]
  }

  lemma TableOfNonEmpty(lots: seq<LotState>)
    ensures TableOf(lots) == map[] <==> lots == []
  {
    if lots != [] {
      assert lots[|lots| - 1].key in TableOf(lots);
    }
  }

  lemma {:induction false} TableMembers(lots: seq<LotState>)
    requires DistinctKeys(lots)
    ensures forall x :: x in lots <==> At(TableOf(lots), x.key) == Some(x.totals)
    ensures TableOf(lots) == FoldLots(lots)
    decreases |lots|
  {
    if lots == [] {
    } else {
      var init, last := lots[..|lots| - 1], lots[|lots| - 1];
      TableMembers(init);
      assert lots == init + [last];
      assert last.key !in TableOf(init) by {
        forall t
          ensures At(TableOf(init), last.key) != Some(t)
        {
          assert LotState(last.key, t) !in init;
        }
      }
    }
  }

  ghost function Enumerate(m: LotTable): (lots: seq<LotState>)
    ensures DistinctKeys(lots) && TableOf(lots) == m
    decreases |m|
  {
    if m == map[] then []
    else
      var k :| k in m;
      var rest := Enumerate(m - {k});
      assert forall i :: 0 <= i < |rest| ==> rest[i].key != k by { TableMembers(rest); }
      var lots := rest + [LotState(k, m[k])];
      assert lots[..|lots| - 1] == rest;
      lots
  }

  /** `_freeze`: whatever order the dictionary holds its lots in, the tuple is the sorted one. */
  ghost function Freeze(household: Uuid, asOf: Instant, m: LotTable): InventorySnapshot {
    InventorySnapshot(household, asOf, SortLots(Enumerate(m)))
  }

  lemma SameMembers(a: seq<LotState>, b: seq<LotState>)
    requires DistinctKeys(a) && DistinctKeys(b)
    ensures TableOf(a) == TableOf(b) <==> (forall x :: x in a <==> x in b)
  {
    TableMembers(a);
    TableMembers(b);
    if forall x :: x in a <==> x in b {
      forall k
        ensures At(TableOf(a), k) == At(TableOf(b), k)
      {
        if k in TableOf(a) {
          assert LotState(k, TableOf(a)[k]) in b;
        } else if k in TableOf(b) {
          assert LotState(k, TableOf(b)[k]) in a;
        }
      }
      SameEverywhere(TableOf(a), TableOf(b));
    }
  }

  /** A frozen table is canonical and loses nothing. */
  lemma FreezeCanonical(household: Uuid, asOf: Instant, m: LotTable)
    ensures var s := Freeze(household, asOf, m); Canonical(s.lots) && TableOf(s.lots) == m
  {
    SortCanonical(Enumerate(m));
    SameMembers(SortLots(Enumerate(m)), Enumerate(m));
  }

  /** A canonical snapshot is the frozen form of its own table. */
  lemma FreezeUnique(s: InventorySnapshot)
    requires Canonical(s.lots)
    ensures s == Freeze(s.household, s.asOf, TableOf(s.lots))
  {
    var f := Freeze(s.household, s.asOf, TableOf(s.lots));
    FreezeCanonical(s.household, s.asOf, TableOf(s.lots));
    CanonicalIsDistinct(s.lots);
    CanonicalIsDistinct(f.lots);
    SameMembers(s.lots, f.lots);
    LotOrder();
    AscendingUnique(s.lots, f.lots, LotLess);
  }

  /** Rows with distinct keys sort to one tuple, whatever order they come in. */
  lemma SortLotsForgetsOrder(a: seq<LotState>, b: seq<LotState>)
    requires DistinctKeys(a) && DistinctKeys(b)
    requires forall x :: x in a <==> x in b
    ensures SortLots(a) == SortLots(b)
  {
    LotOrder();
    DistinctHasNoTies(a);
    DistinctHasNoTies(b);
    SortForgetsOrder(a, b, LotLess);
  }

  method FreezeLots(household: Uuid, asOf: Instant, lots: LotTable) returns (s: InventorySnapshot)
    ensures s == Freeze(household, asOf, lots)
    ensures Canonical(s.lots)
  {
    var values: seq<LotState> := [];
    var left := lots;
    while left != map[]
      invariant left.Keys <= lots.Keys
      invariant forall k :: k in left ==> left[k] == lots[k]
      invariant DistinctKeys(values)
      invariant forall x :: x in values <==> x.key !in left && At(lots, x.key) == Some(x.totals)
      decreases |left|
    {
      var k :| k in left;
      values := values + [LotState(k, left[k])];
      left := left - {k};
    }
    s := InventorySnapshot(household, asOf, SortLots(values));
    TableMembers(Enumerate(lots));
    SortLotsForgetsOrder(values, Enumerate(lots));
    FreezeCanonical(household, asOf, lots);
  }

  function EmptySnapshot(household: Uuid, asOf: Instant): InventorySnapshot {
    InventorySnapshot(household, asOf, [])
  }

  // ------------------------------------------------------------ applying events

  /** Whether a snapshot of this household at this instant could have known the event. */
  predicate Visible(e: InventoryEvent, household: Uuid, asOf: Instant) {
    e.household == household && e.occurredAt <= asOf && e.recordedAt <= asOf
  }

  function Refusal(e: InventoryEvent, household: Uuid, asOf: Instant): Option<FoldError> {
    if e.household != household then Some(HouseholdMismatch)
    else if e.occurredAt > asOf || e.recordedAt > asOf then Some(LabelLeakage)
    else None
  }

  /** The first refusal met when the events are taken in order. */
  function FirstRefusal(es: seq<InventoryEvent>, household: Uuid, asOf: Instant): Option<FoldError> {
    if es == [] then None
    else if Refusal(es[0], household, asOf).Some? then Refusal(es[0], household, asOf)
    else FirstRefusal(es[1..], household, asOf)
  }

  lemma {:induction false} NoRefusal(es: seq<InventoryEvent>, household: Uuid, asOf: Instant)
    ensures FirstRefusal(es, household, asOf).None? <==> forall e :: e in es ==> Visible(e, household, asOf)
  {
    if es == [] {
    } else {
      NoRefusal(es[1..], household, asOf);
      assert es == [es[0]] + es[1..];
      assert es[0] in es;
    }
  }

  /** What advancing a snapshot by some events means, without a loop or a dictionary. */
  ghost function Applied(s: InventorySnapshot, es: seq<InventoryEvent>, asOf: Instant): Result<InventorySnapshot, FoldError> {
    if asOf < s.asOf then Err(LabelLeakage)
    else
      match FirstRefusal(es, s.household, asOf)
      case Some(error) => Err(error)
      case None => Ok(Freeze(s.household, asOf, Merge(TableOf(s.lots), FoldTable(es))))
  }

  ghost function Folded(es: seq<InventoryEvent>, household: Uuid, asOf: Instant): Result<InventorySnapshot, FoldError> {
    Applied(EmptySnapshot(household, asOf), es, asOf)
  }

  method ApplyEvents(s: InventorySnapshot, events: seq<InventoryEvent>, asOf: Instant)
    returns (r: Result<InventorySnapshot, FoldError>)
    ensures r == Applied(s, events, asOf)
  {
    if asOf < s.asOf {
      return Err(LabelLeakage);
    }
    var lots := TableOf(s.lots);
    MergeIdentity(lots);
    var i := 0;
    while i < |events|
      invariant 0 <= i <= |events|
      invariant FirstRefusal(events, s.household, asOf) == FirstRefusal(events[i..], s.household, asOf)
      invariant lots == Merge(TableOf(s.lots), FoldTable(events[..i]))
    {
      var event := events[i];
      assert events[i..][0] == event && events[i..][1..] == events[i + 1..];
      if event.household != s.household {
        return Err(HouseholdMismatch);
      }
      if event.occurredAt > asOf || event.recordedAt > asOf {
        return Err(LabelLeakage);
      }
      var incoming := LotFromEvent(event);
      assert LotsOf(events[..i + 1]) == LotsOf(events[..i]) + [incoming];
      AbsorbIsMerge(TableOf(s.lots), LotsOf(events[..i]), incoming);
      if incoming.key in lots {
        var combined := CombineLots(LotState(incoming.key, lots[incoming.key]), incoming);
        lots := lots[incoming.key := combined.value.totals];
      } else {
        lots := lots[incoming.key := incoming.totals];
      }
      i := i + 1;
    }
    assert events[..i] == events;
    var frozen := FreezeLots(s.household, asOf, lots);
    r := Ok(frozen);
  }

  method FoldEvents(events: seq<InventoryEvent>, household: Uuid, asOf: Instant)
    returns (r: Result<InventorySnapshot, FoldError>)
    ensures r == Folded(events, household, asOf)
  {
    r := ApplyEvents(EmptySnapshot(household, asOf), events, asOf);
  }

  /** Applying succeeds exactly when time does not move back and nothing leaks in. */
  lemma AppliedExactly(s: InventorySnapshot, es: seq<InventoryEvent>, asOf: Instant)
    ensures Applied(s, es, asOf).Ok? <==>
            && s.asOf <= asOf
            && (forall e :: e in es ==> e.household == s.household && e.occurredAt <= asOf && e.recordedAt <= asOf)
    ensures asOf < s.asOf ==> Applied(s, es, asOf) == Err(LabelLeakage)
  {
    NoRefusal(es, s.household, asOf);
  }

  /** The first event that does not belong decides how the refusal is worded. */
  lemma {:induction false} FirstOffenderDecides(s: InventorySnapshot, es: seq<InventoryEvent>, asOf: Instant, i: nat)
    requires s.asOf <= asOf && i < |es|
    requires es[i].household != s.household || es[i].occurredAt > asOf || es[i].recordedAt > asOf
    requires forall j :: 0 <= j < i ==> es[j].household == s.household && es[j].occurredAt <= asOf && es[j].recordedAt <= asOf
    ensures Applied(s, es, asOf) == Err(if es[i].household != s.household then HouseholdMismatch else LabelLeakage)
    decreases i
  {
    if i == 0 {
    } else {
      assert es[1..][i - 1] == es[i];
      FirstOffenderDecides(s, es[1..], asOf, i - 1);
      assert Visible(es[0], s.household, asOf);
    }
  }

  lemma FoldedExactly(es: seq<InventoryEvent>, household: Uuid, asOf: Instant)
    ensures Folded(es, household, asOf).Ok? <==> forall e :: e in es ==> Visible(e, household, asOf)
    ensures Folded(es, household, asOf).Ok? ==>
            Folded(es, household, asOf).value == Freeze(household, asOf, FoldTable(es))
  {
    AppliedExactly(EmptySnapshot(household, asOf), es, asOf);
    MergeIdentity(FoldTable(es));
  }

  /** Any permutation of a history folds to the identical snapshot, tuple order included. */
  lemma FoldForgetsOrder(es: seq<InventoryEvent>, fs: seq<InventoryEvent>, household: Uuid, asOf: Instant)
    requires multiset(es) == multiset(fs)
    ensures Folded(es, household, asOf).Ok? <==> Folded(fs, household, asOf).Ok?
    ensures Folded(es, household, asOf).Ok? ==> Folded(es, household, asOf) == Folded(fs, household, asOf)
  {
    FoldedExactly(es, household, asOf);
    FoldedExactly(fs, household, asOf);
    FoldTablePermutation(es, fs);
    assert forall e :: e in es <==> e in multiset(es);
    assert forall e :: e in fs <==> e in multiset(fs);
  }

  /** Advancing a fold by more events is folding all of them at once. */
  lemma FoldInChunks(es: seq<InventoryEvent>, fs: seq<InventoryEvent>, household: Uuid, before: Instant, asOf: Instant)
    requires Folded(es, household, before).Ok?
    requires before <= asOf
    requires forall e :: e in fs ==> Visible(e, household, asOf)
    ensures Applied(Folded(es, household, before).value, fs, asOf) == Folded(es + fs, household, asOf)
    ensures Folded(es + fs, household, asOf).Ok?
  {
    var s := Folded(es, household, before).value;
    FoldedExactly(es, household, before);
    FreezeCanonical(household, before, FoldTable(es));
    AppliedExactly(s, fs, asOf);
    FoldTableConcat(es, fs);
    FoldedExactly(es + fs, household, asOf);
  }

  // ------------------------------------------------------------ merging snapshots

  ghost function Combined(left: InventorySnapshot, right: InventorySnapshot): Result<InventorySnapshot, FoldError> {
    if left.household != right.household then Err(HouseholdMismatch)
    else Ok(Freeze(left.household, Max(left.asOf, right.asOf), Merge(TableOf(left.lots), FoldLots(right.lots))))
  }

  method CombineSnapshots(left: InventorySnapshot, right: InventorySnapshot)
    returns (r: Result<InventorySnapshot, FoldError>)
    ensures r == Combined(left, right)
  {
    if left.household != right.household {
      return Err(HouseholdMismatch);
    }
    var lots := TableOf(left.lots);
    MergeIdentity(lots);
    var i := 0;
    while i < |right.lots|
      invariant 0 <= i <= |right.lots|
      invariant lots == Merge(TableOf(left.lots), FoldLots(right.lots[..i]))
    {
      var lot := right.lots[i];
      assert right.lots[..i + 1] == right.lots[..i] + [lot];
      AbsorbIsMerge(TableOf(left.lots), right.lots[..i], lot);
      if lot.key in lots {
        var combined := CombineLots(LotState(lot.key, lots[lot.key]), lot);
        lots := lots[lot.key := combined.value.totals];
      } else {
        lots := lots[lot.key := lot.totals];
      }
      i := i + 1;
    }
    assert right.lots[..i] == right.lots;
    var frozen := FreezeLots(left.household, Max(left.asOf, right.asOf), lots);
    r := Ok(frozen);
  }

  /** Two snapshots merge exactly when they are of one household, and then into that household's at the later instant. */
  lemma CombinedExactly(left: InventorySnapshot, right: InventorySnapshot)
    ensures left.household != right.household ==> Combined(left, right) == Err(HouseholdMismatch)
    ensures left.household == right.household ==>
              && Combined(left, right).Ok?
              && Combined(left, right).value.household == left.household
              && left.asOf <= Combined(left, right).value.asOf && right.asOf <= Combined(left, right).value.asOf
              && Combined(left, right).value.asOf in {left.asOf, right.asOf}
              && Canonical(Combined(left, right).value.lots)
  {
    FreezeCanonical(left.household, Max(left.asOf, right.asOf), Merge(TableOf(left.lots), FoldLots(right.lots)));
  }

  /** A plan for a parallel replay: shards folded on their own, then merged in any shape. */
  datatype ShardTree = Shard(events: seq<InventoryEvent>, asOf: Instant) | Join(left: ShardTree, right: ShardTree)

  function AllEvents(t: ShardTree): seq<InventoryEvent> {
    match t
    case Shard(es, _) => es
    case Join(l, r) => AllEvents(l) + AllEvents(r)
  }

  function ShardHorizon(t: ShardTree): Instant {
    match t
    case Shard(_, asOf) => asOf
    case Join(l, r) => Max(ShardHorizon(l), ShardHorizon(r))
  }

  ghost predicate ShardsFold(t: ShardTree, household: Uuid) {
    match t
    case Shard(es, asOf) => Folded(es, household, asOf).Ok?
    case Join(l, r) => ShardsFold(l, household) && ShardsFold(r, household)
  }

  ghost function MergeShards(t: ShardTree, household: Uuid): Result<InventorySnapshot, FoldError> {
    match t
    case Shard(es, asOf) => Folded(es, household, asOf)
    case Join(l, r) =>
      var left, right := MergeShards(l, household), MergeShards(r, household);
      if left.Err? then left else if right.Err? then right else Combined(left.value, right.value)
  }

  /** fold(A + B) == combine(fold(A), fold(B)), at the later of the two instants. */
  lemma JoinIsFold(es: seq<InventoryEvent>, fs: seq<InventoryEvent>, household: Uuid, a: Instant, b: Instant)
    requires Folded(es, household, a).Ok? && Folded(fs, household, b).Ok?
    ensures Folded(es + fs, household, Max(a, b)).Ok?
    ensures Combined(Folded(es, household, a).value, Folded(fs, household, b).value) == Folded(es + fs, household, Max(a, b))
  {
    FoldedExactly(es, household, a);
    FoldedExactly(fs, household, b);
    FoldedExactly(es + fs, household, Max(a, b));
    FreezeCanonical(household, a, FoldTable(es));
    FreezeCanonical(household, b, FoldTable(fs));
    var right := Freeze(household, b, FoldTable(fs));
    CanonicalIsDistinct(right.lots);
    TableMembers(right.lots);
    FoldTableConcat(es, fs);
  }

  /** Sharding never shows: any merge tree over any split gives one fold of all the events. */
  lemma {:induction false} ShardedReplay(t: ShardTree, whole: seq<InventoryEvent>, household: Uuid)
    requires ShardsFold(t, household)
    requires multiset(whole) == multiset(AllEvents(t))
    ensures MergeShards(t, household) == Folded(whole, household, ShardHorizon(t))
    ensures Folded(whole, household, ShardHorizon(t)).Ok?
    decreases t
  {
    match t
    case Shard(es, asOf) =>
      FoldForgetsOrder(es, whole, household, asOf);
    case Join(l, r) =>
      var es, fs := AllEvents(l), AllEvents(r);
      ShardedReplay(l, es, household);
      ShardedReplay(r, fs, household);
      JoinIsFold(es, fs, household, ShardHorizon(l), ShardHorizon(r));
      hide Folded, Combined;
      FoldForgetsOrder(es + fs, whole, household, ShardHorizon(t));
  }
}
