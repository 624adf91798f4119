/** Sums over a snapshot agree with sums over the events behind it: counts, stock, and conservation. */
module Stock {
  import opened Basics
  import opened LotKeys
  import opened Lots
  import opened LotTables
  import opened Selections
  import opened Sorting
  import opened Snapshots
  import opened Records

  function SumBy<T>(xs: seq<T>, f: T -> int): int {
    if xs == [] then 0 else SumBy(xs[..|xs| - 1], f) + f(xs[|xs| - 1])
  }

  lemma {:induction false} SumConcat<T>(xs: seq<T>, ys: seq<T>, f: T -> int)
    ensures SumBy(xs + ys, f) == SumBy(xs, f) + SumBy(ys, f)
    decreases |ys|
  {
    if ys == [] {
      assert xs + ys == xs;
    } else {
      assert (xs + ys)[..|xs + ys| - 1] == xs + ys[..|ys| - 1];
      SumConcat(xs, ys[..|ys| - 1], f);
    }
  }

  lemma SumPull<T>(xs: seq<T>, i: nat, f: T -> int)
    requires i < |xs|
    ensures SumBy(xs, f) == SumBy(xs[..i] + xs[i + 1..], f) + f(xs[i])
  {
    var a, x, b := xs[..i], [xs[i]], xs[i + 1..];
    assert SumBy(x, f) == f(xs[i]) by { assert x[..0] == []; }
    hide SumBy;
    assert xs == (a + x) + b;
    SumConcat(a + x, b, f);
    SumConcat(a, x, f);
    SumConcat(a, b, f);
  }

  lemma {:induction false} SumPermutation<T>(xs: seq<T>, ys: seq<T>, f: T -> int)
    requires multiset(xs) == multiset(ys)
    ensures SumBy(xs, f) == SumBy(ys, f)
    decreases |xs|
  {
    if xs == [] {
      NoneLeft(ys);
    } else {
      var n := |xs| - 1;
      var i := LastSomewhere(xs, ys);
      SumPermutation(xs[..n], ys[..i] + ys[i + 1..], f);
      SumPull(ys, i, f);
    }
  }

  /** A measure of a lot that merging adds up. */
  ghost predicate Additive(f: LotState -> int) {
    forall k, a, b :: f(LotState(k, Plus(a, b))) == f(LotState(k, a)) + f(LotState(k, b))
  }

  lemma TableFromMembers(lots: seq<LotState>, m: LotTable)
    requires DistinctKeys(lots)
    requires forall x :: x in lots <==> At(m, x.key) == Some(x.totals)
    ensures TableOf(lots) == m
  {
    TableMembers(lots);
    forall k
      ensures At(TableOf(lots), k) == At(m, k)
    {
      if k in m {
        assert LotState(k, m[k]) in lots;
      } else if k in TableOf(lots) {
        assert LotState(k, TableOf(lots)[k]) in lots;
      }
    }
    SameEverywhere(TableOf(lots), m);
  }

  /** Absorbing one lot changes one entry, and moves every additive sum by that lot's measure. */
  lemma SumAfterAbsorb(prev: seq<LotState>, x: LotState, f: LotState -> int) returns (next: seq<LotState>)
    requires DistinctKeys(prev) && Additive(f)
    ensures DistinctKeys(next) && TableOf(next) == Absorb(TableOf(prev), x)
    ensures SumBy(next, f) == SumBy(prev, f) + f(x)
  {
    TableMembers(prev);
    var m := TableOf(prev);
    if x.key in m {
      assert LotState(x.key, m[x.key]) in prev;
      var i :| 0 <= i < |prev| && prev[i] == LotState(x.key, m[x.key]);
      var y := LotState(x.key, Plus(m[x.key], x.totals));
      next := prev[i := y];
      assert next[..i] == prev[..i] && next[i + 1..] == prev[i + 1..];
      SumPull(prev, i, f);
      SumPull(next, i, f);
      forall z
        ensures z in next <==> At(Absorb(m, x), z.key) == Some(z.totals)
      {
        UpdatedMembers(prev, i, y, z);
      }
    } else {
      next := prev + [x];
      SumConcat(prev, [x], f);
      assert SumBy([x], f) == f(x);
      forall i | 0 <= i < |prev|
        ensures prev[i].key != x.key
      {
        assert prev[i] in prev;
      }
    }
    TableFromMembers(next, Absorb(m, x));
  }

  lemma UpdatedMembers(prev: seq<LotState>, i: nat, y: LotState, z: LotState)
    requires DistinctKeys(prev) && i < |prev| && y.key == prev[i].key
    ensures z in prev[i := y] <==> if z.key == y.key then z == y else z in prev
  {
    var next := prev[i := y];
    assert next[i] == y;
    if z in next && z.key != y.key {
      var j :| 0 <= j < |next| && next[j] == z;
      assert prev[j] == z;
    }
    if z in prev && z.key != y.key {
      var j :| 0 <= j < |prev| && prev[j] == z;
      assert next[j] == z;
    }
  }

  /** Any additive measure summed over a folded table is that measure summed over what was folded. */
  lemma {:induction false} SumOfFold(lots: seq<LotState>, xs: seq<LotState>, f: LotState -> int)
    requires DistinctKeys(lots) && TableOf(lots) == FoldLots(xs) && Additive(f)
    ensures SumBy(lots, f) == SumBy(xs, f)
    decreases |xs|
  {
    if xs == [] {
      TableOfNonEmpty(lots);
    } else {
      var prev := Enumerate(FoldLots(xs[..|xs| - 1]));
      SumOfFold(prev, xs[..|xs| - 1], f);
      var next := SumAfterAbsorb(prev, xs[|xs| - 1], f);
      SameMembers(lots, next);
      SortLotsForgetsOrder(lots, next);
      SortMembers(lots, LotLess);
      SortMembers(next, LotLess);
      SumPermutation(lots, next, f);
    }
  }

  // ------------------------------------------------------------ direct queries

  function QuantityOf(s: InventorySnapshot, product: Uuid): int {
    SumBy(s.lots, (lot: LotState) => if lot.key.product == product then lot.totals.quantity else 0)
  }

  lemma {:induction false} SumOverLots(es: seq<InventoryEvent>, f: LotState -> int, g: InventoryEvent -> int)
    requires forall e :: f(LotFromEvent(e)) == g(e)
    ensures SumBy(LotsOf(es), f) == SumBy(es, g)
  {
    if es == [] {
    } else {
      assert LotsOf(es)[..|es| - 1] == LotsOf(es[..|es| - 1]);
      SumOverLots(es[..|es| - 1], f, g);
    }
  }

  lemma SumOverSnapshot(household: Uuid, asOf: Instant, es: seq<InventoryEvent>, f: LotState -> int, g: InventoryEvent -> int)
    requires Additive(f) && forall e :: f(LotFromEvent(e)) == g(e)
    ensures SumBy(Freeze(household, asOf, FoldTable(es)).lots, f) == SumBy(es, g)
  {
    var s := Freeze(household, asOf, FoldTable(es));
    FreezeCanonical(household, asOf, FoldTable(es));
    CanonicalIsDistinct(s.lots);
    SumOfFold(s.lots, LotsOf(es), f);
    SumOverLots(es, f, g);
  }

  lemma {:induction false} SumOfOnes<T>(xs: seq<T>, f: T -> int)
    requires forall x :: x in xs ==> f(x) == 1
    ensures SumBy(xs, f) == |xs|
  {
    if xs == [] {
    } else {
      SumOfOnes(xs[..|xs| - 1], f);
      assert xs[|xs| - 1] in xs;
    }
  }

  /** Counting events in the log is adding up the lots' event counts. */
  lemma CountAgrees(log: seq<InventoryEvent>, household: Uuid, asOf: Instant)
    ensures SumBy(Replay(log, household, asOf).lots, (lot: LotState) => lot.totals.eventCount) ==
            |Known(log, household, asOf)|
  {
    var one := (e: InventoryEvent) => 1;
    SumOverSnapshot(household, asOf, Known(log, household, asOf), (lot: LotState) => lot.totals.eventCount, one);
    SumOfOnes(Known(log, household, asOf), one);
  }

  /** A product's stock is the sum of its deltas, whatever lots they fell into. */
  lemma StockIsSumOfDeltas(log: seq<InventoryEvent>, household: Uuid, asOf: Instant, product: Uuid)
    ensures QuantityOf(Replay(log, household, asOf), product) ==
            SumBy(Known(log, household, asOf), (e: InventoryEvent) => if e.product == product then e.delta else 0)
  {
    SumOverSnapshot(household, asOf, Known(log, household, asOf),
                    (lot: LotState) => if lot.key.product == product then lot.totals.quantity else 0,
                    (e: InventoryEvent) => if e.product == product then e.delta else 0);
  }

  // ------------------------------------------------------------ what each lot says

  /** Every field of a lot, read straight off the events that fell into it. */
  ghost predicate Describes(t: Totals, own: seq<InventoryEvent>) {
    && DescribesSums(t, own)
    && DescribesClocks(t, own)
    && DescribesOpening(t, own)
  }

  ghost predicate DescribesSums(t: Totals, own: seq<InventoryEvent>) {
    && t.quantity == SumBy(own, (e: InventoryEvent) => e.delta)
    && t.purchased == SumBy(own, (e: InventoryEvent) => if e.eventType.Purchased? then e.delta else 0)
    && t.consumed == SumBy(own, (e: InventoryEvent) => if e.eventType.Consumed? then -e.delta else 0)
    && t.discarded == SumBy(own, (e: InventoryEvent) => if e.eventType.Discarded? then -e.delta else 0)
    && t.eventCount == |own|
  }

  ghost predicate DescribesClocks(t: Totals, own: seq<InventoryEvent>) {
    && MaxOf(own, (e: InventoryEvent) => -e.occurredAt) == Some(-t.firstOccurredAt)
    && MaxOf(own, (e: InventoryEvent) => e.occurredAt) == Some(t.lastOccurredAt)
    && MaxOf(own, (e: InventoryEvent) => e.recordedAt) == Some(t.lastRecordedAt)
  }

  ghost predicate DescribesOpening(t: Totals, own: seq<InventoryEvent>) {
    MaxOf(Where(own, (e: InventoryEvent) => e.eventType.Opened?), (e: InventoryEvent) => -e.occurredAt) ==
    if t.openedAt.Some? then Some(-t.openedAt.value) else None
  }

  lemma SumSnoc<T>(xs: seq<T>, x: T, f: T -> int)
    ensures SumBy(xs + [x], f) == SumBy(xs, f) + f(x)
  {
    assert (xs + [x])[..|xs|] == xs;
  }

  lemma MaxSnoc<T>(xs: seq<T>, x: T, f: T -> int)
    ensures MaxOf(xs + [x], f) == if MaxOf(xs, f).None? then Some(f(x)) else Some(Max(MaxOf(xs, f).value, f(x)))
  {
    assert (xs + [x])[..|xs|] == xs;
  }

  lemma SumsSnoc(t: Option<Totals>, own: seq<InventoryEvent>, e: InventoryEvent)
    requires if t.None? then own == [] else DescribesSums(t.value, own)
    ensures DescribesSums(Add(t, Some(LotFromEvent(e).totals)).value, own + [e])
  {
    SumSnoc(own, e, (e: InventoryEvent) => e.delta);
    SumSnoc(own, e, (e: InventoryEvent) => if e.eventType.Purchased? then e.delta else 0);
    SumSnoc(own, e, (e: InventoryEvent) => if e.eventType.Consumed? then -e.delta else 0);
    SumSnoc(own, e, (e: InventoryEvent) => if e.eventType.Discarded? then -e.delta else 0);
  }

  lemma ClocksSnoc(t: Option<Totals>, own: seq<InventoryEvent>, e: InventoryEvent)
    requires if t.None? then own == [] else DescribesClocks(t.value, own)
    ensures DescribesClocks(Add(t, Some(LotFromEvent(e).totals)).value, own + [e])
  {
    MaxSnoc(own, e, (e: InventoryEvent) => -e.occurredAt);
    MaxSnoc(own, e, (e: InventoryEvent) => e.occurredAt);
    MaxSnoc(own, e, (e: InventoryEvent) => e.recordedAt);
  }

  lemma OpeningSnoc(t: Option<Totals>, own: seq<InventoryEvent>, e: InventoryEvent)
    requires if t.None? then own == [] else DescribesOpening(t.value, own)
    ensures DescribesOpening(Add(t, Some(LotFromEvent(e).totals)).value, own + [e])
  {
    WhereAppend(own, e, (e: InventoryEvent) => e.eventType.Opened?);
    MaxSnoc(Where(own, (e: InventoryEvent) => e.eventType.Opened?), e, (e: InventoryEvent) => -e.occurredAt);
  }

  /** One more event into a lot, described or not yet begun. */
  lemma DescribesSnoc(t: Option<Totals>, own: seq<InventoryEvent>, e: InventoryEvent)
    requires if t.None? then own == [] else Describes(t.value, own)
    ensures Describes(Add(t, Some(LotFromEvent(e).totals)).value, own + [e])
  {
    hide DescribesSums, DescribesClocks, DescribesOpening;
    SumsSnoc(t, own, e);
    ClocksSnoc(t, own, e);
    OpeningSnoc(t, own, e);
  }

  /** The events that fall into a lot: same product, place, normalised unit, printed date and label. */
  function EventsOfLot(es: seq<InventoryEvent>, k: LotKey): seq<InventoryEvent> {
    Where(es, (e: InventoryEvent) =>
      && e.product == k.product
      && e.location == k.location
      && NormalizeUnit(e.unit) == k.unit
      && e.printedDate == k.printedDate
      && e.labelType == k.labelType)
  }

  /** A lot exists exactly when an event fell into it, and each of its fields is read off those events alone. */
  lemma {:induction false} EveryLotIsItsEvents(es: seq<InventoryEvent>, k: LotKey)
    ensures k in FoldTable(es) <==> EventsOfLot(es, k) != []
    ensures k in FoldTable(es) ==> Describes(FoldTable(es)[k], EventsOfLot(es, k))
  {
    if es == [] {
    } else {
      var init, e := es[..|es| - 1], es[|es| - 1];
      EveryLotIsItsEvents(init, k);
      assert LotsOf(es)[..|es| - 1] == LotsOf(init);
      assert FoldTable(es) == Absorb(FoldTable(init), LotFromEvent(e));
      hide Describes;
      if KeyFor(e) == k {
        DescribesSnoc(At(FoldTable(init), k), EventsOfLot(init, k), e);
      }
    }
  }

  /** Which events move stock without being a purchase, a consumption or a discard. */
  function OtherDelta(e: InventoryEvent): int {
    if e.eventType.Opened? || e.eventType.Corrected? || e.eventType.Moved? then e.delta else 0
  }

  /** Every delta is a purchase, a consumption, a discard, or one of the others. */
  lemma {:induction false} DeltasSplit(own: seq<InventoryEvent>)
    ensures SumBy(own, (e: InventoryEvent) => e.delta) ==
            SumBy(own, (e: InventoryEvent) => if e.eventType.Purchased? then e.delta else 0)
            - SumBy(own, (e: InventoryEvent) => if e.eventType.Consumed? then -e.delta else 0)
            - SumBy(own, (e: InventoryEvent) => if e.eventType.Discarded? then -e.delta else 0)
            + SumBy(own, OtherDelta)
  {
    if own == [] {
    } else {
      DeltasSplit(own[..|own| - 1]);
    }
  }

  /** Each lot: quantity is purchased less consumed less discarded, plus opened, corrected and moved deltas. */
  lemma StockConserved(es: seq<InventoryEvent>, k: LotKey)
    requires k in FoldTable(es)
    ensures var t := FoldTable(es)[k];
            t.quantity == t.purchased - t.consumed - t.discarded + SumBy(EventsOfLot(es, k), OtherDelta)
  {
    EveryLotIsItsEvents(es, k);
    DeltasSplit(EventsOfLot(es, k));
    hide EventsOfLot, FoldTable, DescribesClocks, DescribesOpening;
  }

  lemma EventHasItsLot(es: seq<InventoryEvent>, e: InventoryEvent)
    requires e in es
    ensures KeyFor(e) in FoldTable(es) && e.recordedAt <= FoldTable(es)[KeyFor(e)].lastRecordedAt
  {
    var own := EventsOfLot(es, KeyFor(e));
    assert e in own;
    EveryLotIsItsEvents(es, KeyFor(e));
    hide EventsOfLot, FoldTable, DescribesSums, DescribesOpening;
    MaxOfBounds(own, (e: InventoryEvent) => e.recordedAt);
  }

  lemma LotHasItsLastEvent(es: seq<InventoryEvent>, k: LotKey) returns (i: nat)
    requires k in FoldTable(es)
    ensures i < |es| && KeyFor(es[i]) == k && es[i].recordedAt == FoldTable(es)[k].lastRecordedAt
  {
    var own := EventsOfLot(es, k);
    EveryLotIsItsEvents(es, k);
    assert forall e :: e in own ==> e in es && KeyFor(e) == k;
    hide EventsOfLot, FoldTable, DescribesSums, DescribesOpening;
    MaxOfBounds(own, (e: InventoryEvent) => e.recordedAt);
    var j :| 0 <= j < |own| && own[j].recordedAt == FoldTable(es)[k].lastRecordedAt;
    assert own[j] in own;
    i :| 0 <= i < |es| && es[i] == own[j];
  }

  /** A snapshot's lots are exactly the entries of the table it froze. */
  lemma LotsAreEntries(household: Uuid, asOf: Instant, m: LotTable, lot: LotState)
    ensures lot in Freeze(household, asOf, m).lots <==> At(m, lot.key) == Some(lot.totals)
  {
    FreezeCanonical(household, asOf, m);
    CanonicalIsDistinct(Freeze(household, asOf, m).lots);
    TableMembers(Freeze(household, asOf, m).lots);
  }

  /** The latest recorded clock over the log is the latest over the lots. */
  lemma LatestAgrees(log: seq<InventoryEvent>, household: Uuid, asOf: Instant)
    ensures MaxOf(Known(log, household, asOf), (e: InventoryEvent) => e.recordedAt) ==
            MaxOf(Replay(log, household, asOf).lots, (lot: LotState) => lot.totals.lastRecordedAt)
  {
    hide Freeze, Known;
    var es, lots := Known(log, household, asOf), Replay(log, household, asOf).lots;
    var f, g := (e: InventoryEvent) => e.recordedAt, (lot: LotState) => lot.totals.lastRecordedAt;
    forall i | 0 <= i < |es|
      ensures Reached(f(es[i]), lots, g)
    {
      EventHasItsLot(es, es[i]);
      var lot := LotState(KeyFor(es[i]), FoldTable(es)[KeyFor(es[i])]);
      LotsAreEntries(household, asOf, FoldTable(es), lot);
      assert lot in lots;
    }
    forall j | 0 <= j < |lots|
      ensures Reached(g(lots[j]), es, f)
    {
      LotsAreEntries(household, asOf, FoldTable(es), lots[j]);
      var i := LotHasItsLastEvent(es, lots[j].key);
      assert g(lots[j]) <= f(es[i]);
    }
    MaxOfAgrees(es, f, lots, g);
  }

  /** The products the log has touched are the products of the lots. */
  lemma ProductsAgree(log: seq<InventoryEvent>, household: Uuid, asOf: Instant)
    ensures (set e | e in Known(log, household, asOf) :: e.product) ==
            (set lot | lot in Replay(log, household, asOf).lots :: lot.key.product)
  {
    hide Freeze, Known;
    var es, lots := Known(log, household, asOf), Replay(log, household, asOf).lots;
    forall e | e in es
      ensures e.product in set lot | lot in lots :: lot.key.product
    {
      EventHasItsLot(es, e);
      var lot := LotState(KeyFor(e), FoldTable(es)[KeyFor(e)]);
      LotsAreEntries(household, asOf, FoldTable(es), lot);
      assert lot in lots && lot.key.product == e.product;
    }
    forall lot | lot in lots
      ensures lot.key.product in set e | e in es :: e.product
    {
      LotsAreEntries(household, asOf, FoldTable(es), lot);
      var i := LotHasItsLastEvent(es, lot.key);
      assert es[i] in es && es[i].product == lot.key.product;
    }
  }
}
