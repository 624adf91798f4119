/** When each call succeeds and what it then leaves, said of the events and rows themselves. */
module Outcomes {
  import opened Basics
  import opened LotKeys
  import opened Lots
  import opened LotTables
  import opened Selections
  import opened Snapshots
  import opened Records
  import opened Stock
  import opened RecordInvariants
  import opened RecordRuns
  import opened Idempotence

  // ------------------------------------------------------------ what a replay shows

  /** The log's events of this household, with both clocks at or before the instant, that fall into this lot. */
  function LotHistory(log: seq<InventoryEvent>, household: Uuid, asOf: Instant, k: LotKey, missed: set<InventoryEvent>): seq<InventoryEvent> {
    Where(log, (e: InventoryEvent) =>
      && e.household == household
      && e.occurredAt <= asOf
      && e.recordedAt <= asOf
      && e !in missed
      && e.product == k.product
      && e.location == k.location
      && NormalizeUnit(e.unit) == k.unit
      && e.printedDate == k.printedDate
      && e.labelType == k.labelType)
  }

  lemma LotHistoryIsCounted(log: seq<InventoryEvent>, household: Uuid, asOf: Instant, k: LotKey, missed: set<InventoryEvent>)
    ensures EventsOfLot(Counted(log, household, asOf, missed), k) == LotHistory(log, household, asOf, k, missed)
  {
    var p := (e: InventoryEvent) => Visible(e, household, asOf) && e !in missed;
    var q := (e: InventoryEvent) =>
      && e.product == k.product
      && e.location == k.location
      && NormalizeUnit(e.unit) == k.unit
      && e.printedDate == k.printedDate
      && e.labelType == k.labelType;
    var both := (e: InventoryEvent) =>
      && e.household == household
      && e.occurredAt <= asOf
      && e.recordedAt <= asOf
      && e !in missed
      && e.product == k.product
      && e.location == k.location
      && NormalizeUnit(e.unit) == k.unit
      && e.printedDate == k.printedDate
      && e.labelType == k.labelType;
    hide NormalizeUnit;
    assert Counted(log, household, asOf, missed) == Where(log, p);
    assert EventsOfLot(Where(log, p), k) == Where(Where(log, p), q);
    assert LotHistory(log, household, asOf, k, missed) == Where(log, both);
    WhereBoth(log, p, q, both);
  }

  /**
   * What a projection shows, without any fold: a lot is there exactly when the log holds an event of the household,
   * known by both clocks, with the lot's product, place, unit, date and label; and each field is read off those events.
   */
  lemma ReplayReadsTheLog(log: seq<InventoryEvent>, household: Uuid, asOf: Instant, k: LotKey)
    ensures var s, own := Replay(log, household, asOf), LotHistory(log, household, asOf, k, {});
            && s.household == household && s.asOf == asOf && Canonical(s.lots)
            && ((exists lot :: lot in s.lots && lot.key == k) <==> own != [])
            && (forall lot :: lot in s.lots && lot.key == k ==> Describes(lot.totals, own))
  {
    var es := Known(log, household, asOf);
    FrozenLotsAreTheirEvents(household, asOf, es, k);
    FreezeCanonical(household, asOf, FoldTable(es));
    hide Describes, LotHistory, FoldTable, Known, EventsOfLot, Canonical, Counted;
    CountedIsKnown(log, household, asOf, {});
    LotHistoryIsCounted(log, household, asOf, k, {});
  }

  lemma FrozenLotsAreTheirEvents(household: Uuid, asOf: Instant, es: seq<InventoryEvent>, k: LotKey)
    ensures var lots := Freeze(household, asOf, FoldTable(es)).lots;
            && ((exists lot :: lot in lots && lot.key == k) <==> EventsOfLot(es, k) != [])
            && (forall lot :: lot in lots && lot.key == k ==> Describes(lot.totals, EventsOfLot(es, k)))
  {
    hide Describes, FoldTable, EventsOfLot, Freeze;
    EveryLotIsItsEvents(es, k);
    var lots := Freeze(household, asOf, FoldTable(es)).lots;
    forall lot
      ensures lot in lots <==> At(FoldTable(es), lot.key) == Some(lot.totals)
    {
      LotsAreEntries(household, asOf, FoldTable(es), lot);
    }
    if k in FoldTable(es) {
      assert LotState(k, FoldTable(es)[k]) in lots;
    }
  }

  // ------------------------------------------------------------ when a projection is stored

  predicate InQuantityColumn(q: int) {
    -99_999_999_999_999 <= q <= 99_999_999_999_999
  }

  /** The totals of these events fit a snapshot row: fourteen digits each, and a 32-bit count. */
  ghost predicate Storable(own: seq<InventoryEvent>) {
    && |own| <= 2_147_483_647
    && InQuantityColumn(SumBy(own, (e: InventoryEvent) => e.delta))
    && InQuantityColumn(SumBy(own, (e: InventoryEvent) => if e.eventType.Purchased? then e.delta else 0))
    && InQuantityColumn(SumBy(own, (e: InventoryEvent) => if e.eventType.Consumed? then -e.delta else 0))
    && InQuantityColumn(SumBy(own, (e: InventoryEvent) => if e.eventType.Discarded? then -e.delta else 0))
  }

  predicate TotalsFit(t: Totals) {
    && t.eventCount <= 2_147_483_647
    && InQuantityColumn(t.quantity)
    && InQuantityColumn(t.purchased)
    && InQuantityColumn(t.consumed)
    && InQuantityColumn(t.discarded)
  }

  lemma DescribedFits(t: Totals, own: seq<InventoryEvent>)
    requires Describes(t, own)
    ensures TotalsFit(t) <==> Storable(own)
  {
    hide DescribesClocks, DescribesOpening, SumBy;
  }

  lemma FitsColumnsMeans(lots: seq<LotState>)
    ensures FitsColumns(lots) <==> forall lot :: lot in lots ==> TotalsFit(lot.totals)
  {
  }

  lemma LotStorableIff(es: seq<InventoryEvent>, k: LotKey)
    ensures Storable(EventsOfLot(es, k)) <==> (k in FoldTable(es) ==> TotalsFit(FoldTable(es)[k]))
  {
    EveryLotIsItsEvents(es, k);
    if k in FoldTable(es) {
      DescribedFits(FoldTable(es)[k], EventsOfLot(es, k));
    }
  }

  lemma FoldFitsIff(household: Uuid, asOf: Instant, es: seq<InventoryEvent>)
    ensures FitsColumns(Freeze(household, asOf, FoldTable(es)).lots) <==> forall k :: Storable(EventsOfLot(es, k))
  {
    var lots := Freeze(household, asOf, FoldTable(es)).lots;
    hide FitsColumns, Freeze, FoldTable, TotalsFit, Storable, EventsOfLot;
    FitsColumnsMeans(lots);
    forall k
      ensures Storable(EventsOfLot(es, k)) <==> (k in FoldTable(es) ==> TotalsFit(FoldTable(es)[k]))
    {
      LotStorableIff(es, k);
    }
    forall lot
      ensures lot in lots <==> At(FoldTable(es), lot.key) == Some(lot.totals)
    {
      LotsAreEntries(household, asOf, FoldTable(es), lot);
    }
    forall k | k in FoldTable(es)
      ensures LotState(k, FoldTable(es)[k]) in lots
    {
      assert At(FoldTable(es), k) == Some(FoldTable(es)[k]);
    }
    forall lot | lot in lots
      ensures lot.key in FoldTable(es) && lot.totals == FoldTable(es)[lot.key]
    {
    }
    if forall k :: Storable(EventsOfLot(es, k)) {
      forall lot | lot in lots
        ensures TotalsFit(lot.totals)
      {
        assert Storable(EventsOfLot(es, lot.key));
      }
    }
  }

  /** After any run, a rebuild succeeds exactly when the totals of every lot's known events fit a row. */
  lemma RebuildLandsIff(ops: seq<Op>, household: Uuid, asOf: Instant)
    ensures var st := After(ops).store;
            Step(st, Rebuild(household, asOf)).1.Shown? <==>
            forall k :: Storable(LotHistory(st.log, household, asOf, k, {}))
  {
    hide Get, Advanced, Storable;
    var st := After(ops).store;
    OnlySizeIsRefused(ops, household, asOf);
    CountedIsKnown(st.log, household, asOf, {});
    FoldFitsIff(household, asOf, Known(st.log, household, asOf));
    forall k
      ensures LotHistory(st.log, household, asOf, k, {}) == EventsOfLot(Known(st.log, household, asOf), k)
    {
      LotHistoryIsCounted(st.log, household, asOf, k, {});
    }
  }

  /**
   * After any run, for a household no direct save imposed on: an advance to an earlier instant always succeeds; any
   * other succeeds exactly when the totals of every lot's counted events fit a row.
   */
  lemma AdvanceLandsIff(ops: seq<Op>, household: Uuid, asOf: Instant)
    requires household !in After(ops).imposed
    ensures var w := After(ops);
            Step(w.store, Advance(household, asOf)).1.Shown? <==>
            match Get(w.store.rows, household)
            case None => forall k :: Storable(LotHistory(w.store.log, household, asOf, k, {}))
            case Some(s) => asOf < s.asOf || forall k :: Storable(LotHistory(w.store.log, household, asOf, k, w.missed))
  {
    hide Get, Storable, FitsColumns, Rebuilt, Advanced, Caught, LotHistory, Replay;
    var w := After(ops);
    if Get(w.store.rows, household).None? {
      AdvanceWithoutStored(w.store, household, asOf);
      RebuildLandsIff(ops, household, asOf);
    } else if Get(w.store.rows, household).value.asOf <= asOf {
      OnlySizeIsRefused(ops, household, asOf);
      CaughtFitsIff(ops, household, asOf);
    } else {
      EarlierAlwaysShown(w.store, household, asOf);
    }
  }

  lemma CaughtFitsIff(ops: seq<Op>, household: Uuid, asOf: Instant)
    requires household !in After(ops).imposed && Get(After(ops).store.rows, household).Some?
    requires Get(After(ops).store.rows, household).value.asOf <= asOf
    ensures var w := After(ops);
            FitsColumns(Caught(w.store, household, asOf).lots) <==>
            forall k :: Storable(LotHistory(w.store.log, household, asOf, k, w.missed))
  {
    var w := After(ops);
    RunsKeepInv(ops);
    hide Inv, Get, Storable, FitsColumns, Caught, LotHistory, Counted, EventsOfLot, Freeze, FoldTable;
    AdvanceCounts(w, household, asOf);
    FoldFitsIff(household, asOf, Counted(w.store.log, household, asOf, w.missed));
    forall k
      ensures LotHistory(w.store.log, household, asOf, k, w.missed) == EventsOfLot(Counted(w.store.log, household, asOf, w.missed), k)
    {
      LotHistoryIsCounted(w.store.log, household, asOf, k, w.missed);
    }
  }

  lemma EarlierAlwaysShown(st: Store, household: Uuid, asOf: Instant)
    requires Get(st.rows, household).Some? && asOf < Get(st.rows, household).value.asOf
    ensures Advanced(st, household, asOf).1.Ok?
  {
    hide Get;
  }

  /** Over a guarded run, when every lot's known events fit a row, rebuild and advance both return the replay. */
  lemma GuardedCallsLand(ops: seq<Op>, household: Uuid, asOf: Instant)
    requires Guarded(ops) && forall k :: Storable(LotHistory(After(ops).store.log, household, asOf, k, {}))
    ensures var st := After(ops).store;
            && Step(st, Rebuild(household, asOf)).1 == Shown(Replay(st.log, household, asOf))
            && Step(st, Advance(household, asOf)).1 == Shown(Replay(st.log, household, asOf))
  {
    hide Get, Storable, LotHistory, Guarded, Inv, Replay, Advanced, Rebuilt, After;
    GuardedMissesNothing(ops);
    RunsKeepInv(ops);
    var w := After(ops);
    assert w.missed == {} && household !in w.imposed;
    RebuildLandsIff(ops, household, asOf);
    AdvanceLandsIff(ops, household, asOf);
    RebuildKeepsInv(w, household, asOf);
    GuardedRunsReplay(ops, household, asOf);
  }

  // ------------------------------------------------------------ when events are logged

  predicate HasText(s: string) {
    exists i :: 0 <= i < |s| && s[i] != ' '
  }

  /** The constraints of the event table, one by one. */
  predicate MeetsConstraints(e: InventoryEvent) {
    && InQuantityColumn(e.delta)
    && (e.eventType == Purchased ==> e.delta >= 0)
    && (e.eventType == Consumed ==> e.delta <= 0)
    && (e.eventType == Discarded ==> e.delta <= 0)
    && (e.labelType != None ==> e.printedDate != None)
    && HasText(e.unit) && |e.unit| <= 24
    && HasText(e.idempotencyKey) && |e.idempotencyKey| <= 200
  }

  lemma ConstraintsAreRules(e: InventoryEvent)
    ensures MeetsConstraints(e) <==> EventRules(e)
  {
    NotBlankHasText(e.unit);
    NotBlankHasText(e.idempotencyKey);
  }

  lemma NotBlankHasText(s: string)
    ensures HasText(s) <==> NotBlank(s)
  {
    if HasText(s) {
      var i :| 0 <= i < |s| && s[i] != ' ';
      assert s[i] in s;
    }
  }

  /** Neither the key nor the id of this event is among these. */
  predicate NewTo(es: seq<InventoryEvent>, e: InventoryEvent) {
    forall i :: 0 <= i < |es| ==> es[i].idempotencyKey != e.idempotencyKey && es[i].id != e.id
  }

  /** No key or id of these rows is taken, by the log or by an earlier one of them. */
  ghost predicate AllNew(log: seq<InventoryEvent>, es: seq<InventoryEvent>) {
    forall i :: 0 <= i < |es| ==> NewTo(log, es[i]) && NewTo(es[..i], es[i])
  }

  ghost predicate AllMeetConstraints(es: seq<InventoryEvent>) {
    forall i :: 0 <= i < |es| ==> MeetsConstraints(es[i])
  }

  /** The table takes these rows after those: each within the constraints, no key or id twice. */
  ghost predicate BatchFits(log: seq<InventoryEvent>, es: seq<InventoryEvent>) {
    AllMeetConstraints(es) && AllNew(log, es)
  }

  lemma NewToIsFree(log: seq<InventoryEvent>, e: InventoryEvent)
    ensures NewTo(log, e) <==> !KeyTaken(log, e.idempotencyKey) && !IdTaken(log, e.id)
  {
    if NewTo(log, e) {
      forall x | x in log
        ensures x.idempotencyKey != e.idempotencyKey && x.id != e.id
      {
        var i :| 0 <= i < |log| && log[i] == x;
      }
    }
    if !NewTo(log, e) {
      var i :| 0 <= i < |log| && (log[i].idempotencyKey == e.idempotencyKey || log[i].id == e.id);
      assert log[i] in log;
    }
  }

  lemma NewToConcat(a: seq<InventoryEvent>, b: seq<InventoryEvent>, e: InventoryEvent)
    ensures NewTo(a + b, e) <==> NewTo(a, e) && NewTo(b, e)
  {
    if NewTo(a + b, e) {
      assert forall i :: 0 <= i < |a| ==> (a + b)[i] == a[i];
      assert forall i :: 0 <= i < |b| ==> (a + b)[|a| + i] == b[i];
    }
  }

  /** Taking the first row moves it from the batch to the log. */
  lemma AllNewRest(log: seq<InventoryEvent>, es: seq<InventoryEvent>)
    requires es != []
    ensures AllNew(log, es) <==> NewTo(log, es[0]) && AllNew(log + [es[0]], es[1..])
  {
    NothingTaken(es[0]);
    hide NewTo;
    assert es[..0] == [];
    forall i | 0 <= i < |es| - 1
      ensures es[1..][i] == es[i + 1]
      ensures NewTo(log + [es[0]], es[i + 1]) && NewTo(es[1..][..i], es[i + 1]) <==> NewTo(log, es[i + 1]) && NewTo(es[..i + 1], es[i + 1])
    {
      NewToConcat(log, [es[0]], es[i + 1]);
      NewToConcat([es[0]], es[1..][..i], es[i + 1]);
      assert es[..i + 1] == [es[0]] + es[1..][..i];
    }
    if AllNew(log + [es[0]], es[1..]) && NewTo(log, es[0]) {
      forall i | 0 <= i < |es|
        ensures NewTo(log, es[i]) && NewTo(es[..i], es[i])
      {
        if i > 0 {
          assert es[1..][i - 1] == es[i];
        }
      }
    }
  }

  lemma NothingTaken(e: InventoryEvent)
    ensures NewTo([], e)
  {
  }

  lemma AllMeetRest(es: seq<InventoryEvent>)
    requires es != []
    ensures AllMeetConstraints(es) <==> MeetsConstraints(es[0]) && AllMeetConstraints(es[1..])
  {
    hide MeetsConstraints;
    assert forall i :: 0 < i < |es| ==> es[1..][i - 1] == es[i];
    assert forall i :: 0 <= i < |es| - 1 ==> es[1..][i] == es[i + 1];
  }

  /** The batch goes in whole, or fails for a broken constraint or for a repeated key or id, whichever there is. */
  lemma {:induction false} InsertAllIff(log: seq<InventoryEvent>, es: seq<InventoryEvent>)
    ensures BatchFits(log, es) ==> InsertAll(log, es) == Ok(log + es)
    ensures !AllMeetConstraints(es) && AllNew(log, es) ==> InsertAll(log, es) == Err(ConstraintViolated)
    ensures AllMeetConstraints(es) && !AllNew(log, es) ==> InsertAll(log, es) == Err(DuplicateRow)
    ensures !BatchFits(log, es) ==> InsertAll(log, es).Err?
    decreases |es|
  {
    if es == [] {
      assert log + es == log;
    } else {
      ConstraintsAreRules(es[0]);
      NewToIsFree(log, es[0]);
      AllNewRest(log, es);
      AllMeetRest(es);
      InsertAllIff(log + [es[0]], es[1..]);
      hide AllNew, AllMeetConstraints, MeetsConstraints, EventRules, NewTo;
      assert log + es == (log + [es[0]]) + es[1..];
    }
  }

  /** A batch is logged, whole and in order, exactly when every event meets the constraints and no key or id repeats. */
  lemma BatchLandsIff(st: Store, household: Uuid, drafts: seq<Draft>, now: Instant)
    ensures var es, (st', reply) := ToEvents(household, drafts, now), Step(st, Append(household, drafts, now));
            && (BatchFits(st.log, es) ==> reply == Logged(es) && st' == Store(st.log + es, st.rows))
            && (!BatchFits(st.log, es) ==> reply.Failed? && st' == st)
            && (!AllMeetConstraints(es) && AllNew(st.log, es) ==> reply == Failed(ConstraintViolated))
            && (AllMeetConstraints(es) && !AllNew(st.log, es) ==> reply == Failed(DuplicateRow))
  {
    InsertAllIff(st.log, ToEvents(household, drafts, now));
    hide AllNew, AllMeetConstraints;
  }

  /** After any run, exactly what a delivery does. */
  lemma DeliveryOutcome(ops: seq<Op>, household: Uuid, draft: Draft, now: Instant)
    ensures var st, e := After(ops).store, ToEvent(household, draft, now);
            var (st', reply) := Step(st, AppendIfNew(household, draft, now));
            && (!MeetsConstraints(e) ==> reply == Failed(ConstraintViolated) && st' == st)
            && (MeetsConstraints(e) && NewTo(st.log, e) ==> reply == Stored(e, true) && st' == Store(st.log + [e], st.rows))
            && (MeetsConstraints(e) ==> forall x :: x in st.log && x.idempotencyKey == e.idempotencyKey ==>
                  st' == st && reply == if x.household == household then Stored(x, false) else Failed(KeyUsedElsewhere))
  {
    var st, e := After(ops).store, ToEvent(household, draft, now);
    RunsKeepInv(ops);
    hide Get, NormalizeUnit, MeetsConstraints, EventRules, FindByKey;
    ConstraintsAreRules(e);
    NewToIsFree(st.log, e);
    forall x | x in st.log && x.idempotencyKey == e.idempotencyKey
      ensures FindByKey(st.log, household, e.idempotencyKey) == if x.household == household then Some(x) else None
    {
      KeyFindsItsEvent(st.log, x, household);
    }
  }

  // ------------------------------------------------------------ when a snapshot is saved

  /** A snapshot row's constraints, one by one. */
  predicate RowMeetsConstraints(lot: LotState) {
    && lot.totals.eventCount >= 1
    && (lot.key.labelType != None ==> lot.key.printedDate != None)
    && |lot.key.unit| <= 24
  }

  /**
   * A save is refused for another household's snapshot, then for a repeated lot or a row outside its constraints, then
   * for a total too large for its column; for nothing else, and always leaving both tables as they were.
   */
  lemma SaveLandsIff(st: Store, household: Uuid, s: InventorySnapshot)
    ensures var (st', reply) := Step(st, Save(household, s));
            reply ==
            if s.household != household then Failed(Refused(HouseholdMismatch))
            else if !(forall i, j :: 0 <= i < j < |s.lots| ==> s.lots[i].key != s.lots[j].key) then Failed(ConstraintViolated)
            else if !(forall lot :: lot in s.lots ==> RowMeetsConstraints(lot)) then Failed(ConstraintViolated)
            else if !(forall lot :: lot in s.lots ==> TotalsFit(lot.totals)) then Failed(NumericOverflow)
            else Done
    ensures var (st', reply) := Step(st, Save(household, s)); reply.Failed? ==> st' == st
  {
    FitsColumnsMeans(s.lots);
    TableRulesMean(s.lots);
    hide FitsColumns, TableRules, TotalsFit, RowMeetsConstraints;
  }

  lemma TableRulesMean(lots: seq<LotState>)
    ensures TableRules(lots) <==>
            && (forall i, j :: 0 <= i < j < |lots| ==> lots[i].key != lots[j].key)
            && (forall lot :: lot in lots ==> RowMeetsConstraints(lot))
  {
    assert forall lot :: LotRules(lot) <==> RowMeetsConstraints(lot);
  }

  /** After a clear the household has nothing stored, and everyone else what they had. */
  lemma ClearForgets(st: Store, household: Uuid, other: Uuid)
    ensures var (st', reply) := Step(st, Clear(household));
            && reply == Done && st'.log == st.log
            && Get(st'.rows, household) == None
            && (other != household ==> Get(st'.rows, other) == Get(st.rows, other))
  {
    var nothing := EmptySnapshot(household, 0);
    assert RowsOfOthers(st.rows, household) + RowsOf(nothing) == RowsOfOthers(st.rows, household);
    ReadBack(st.rows, household, nothing);
    hide Get;
    if other != household {
      SaveFrame(st, household, nothing, other);
    }
  }
}
