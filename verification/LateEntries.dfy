/** The one thing the code does not guard against: an event entered under a watermark already stored. */
module LateEntries {
  import opened Basics
  import opened LotKeys
  import opened Lots
  import opened LotTables
  import opened Selections
  import opened Snapshots
  import opened Records
  import opened RecordInvariants
  import opened RecordRuns
  import opened RecordLaws

  /** An appending call adds to the log, leaves the rows, and misses exactly the covered events it added. */
  lemma AppendStep(ops: seq<Op>, op: Op)
    requires op.Append? || op.AppendIfNew?
    ensures var w, w' := After(ops), After(ops + [op]);
            && w'.store == Store(w.store.log + Appended(w.store, op), w.store.rows)
            && w'.missed == w.missed + (set e | e in Appended(w.store, op) && Covered(w.store.rows, e))
            && w'.imposed == w.imposed
  {
    assert (ops + [op])[..|ops|] == ops;
    LogOnlyGrows(After(ops).store, op);
    hide Covered, InsertAll, InsertIfNew;
    QuietStep(After(ops), op);
  }

  /**
   * The guard, exactly: while nothing is missed for a household, an advance after one more append returns the replay
   * if and only if none of the household's new events is covered by its stored watermark.
   */
  lemma GuardIsExact(ops: seq<Op>, op: Op, household: Uuid, asOf: Instant)
    requires op.Append? || op.AppendIfNew?
    requires household !in After(ops).imposed && forall e :: e in After(ops).missed ==> e.household != household
    requires Get(After(ops).store.rows, household).Some? && Get(After(ops).store.rows, household).value.asOf <= asOf
    ensures var st, st' := After(ops).store, After(ops + [op]).store;
            Advanced(st', household, asOf).1.Ok? ==>
            (Advanced(st', household, asOf).1.value == Replay(st'.log, household, asOf) <==>
             forall e :: e in Appended(st, op) && e.household == household ==>
               var watermark := Get(st.rows, household).value.asOf; e.occurredAt > watermark || e.recordedAt > watermark)
  {
    hide Get, Appended, Advanced, Replay;
    AppendStep(ops, op);
    AdvanceIsReplayIff(ops + [op], household, asOf);
  }

  /** Whatever the history, once such an event is in, every advance from the watermark on disagrees with a replay. */
  lemma LateEntryIsLost(ops: seq<Op>, op: Op, e: InventoryEvent, asOf: Instant)
    requires op.Append? || op.AppendIfNew?
    requires e in Appended(After(ops).store, op) && Covered(After(ops).store.rows, e)
    requires Get(After(ops).store.rows, e.household).value.asOf <= asOf && e.household !in After(ops).imposed
    ensures var st := After(ops + [op]).store;
            Advanced(st, e.household, asOf).1.Ok? ==>
            Advanced(st, e.household, asOf).1.value != Replay(st.log, e.household, asOf)
  {
    hide Get, Appended, Advanced, Replay;
    AppendStep(ops, op);
    AdvanceIsReplayIff(ops + [op], e.household, asOf);
  }

  // ------------------------------------------------------------ a run that does it

  lemma OneEventReplay(e: InventoryEvent, asOf: Instant)
    requires Visible(e, e.household, asOf)
    ensures Replay([e], e.household, asOf) == InventorySnapshot(e.household, asOf, [LotFromEvent(e)])
  {
    WhereAppend([], e, (x: InventoryEvent) => Visible(x, e.household, asOf));
    assert [] + [e] == [e];
    assert Known([e], e.household, asOf) == [e];
    var s := InventorySnapshot(e.household, asOf, [LotFromEvent(e)]);
    assert LotsOf([e]) == s.lots && s.lots[..0] == [];
    assert TableOf(s.lots) == FoldLots(s.lots) by { TableMembers(s.lots); }
    FreezeUnique(s);
  }

  lemma SingletonCanonical(lot: LotState)
    ensures Canonical([lot])
  {
  }

  lemma OneLotFits(e: InventoryEvent)
    requires EventSound(e)
    ensures TableRules([LotFromEvent(e)]) && FitsColumns([LotFromEvent(e)])
  {
  }

  lemma RebuildOfOneSucceeds(e: InventoryEvent, asOf: Instant)
    requires EventSound(e) && Visible(e, e.household, asOf)
    ensures Rebuilt(Store([e], []), e.household, asOf).1.Ok?
  {
    OneEventReplay(e, asOf);
    OneLotFits(e);
    hide TableRules, FitsColumns, EventSound, Replay, RowsOf, RowsOfOthers, LotFromEvent, Visible;
  }

  /** Rebuilding a log of one known event stores its one lot. */
  lemma RebuildOfOne(e: InventoryEvent, asOf: Instant)
    requires EventSound(e) && Visible(e, e.household, asOf)
    ensures var w := Next(World(Store([e], []), {}, {}), Rebuild(e.household, asOf));
            && w.store.log == [e] && w.missed == {} && w.imposed == {}
            && Get(w.store.rows, e.household) == Some(InventorySnapshot(e.household, asOf, [LotFromEvent(e)]))
  {
    hide Get, EventSound, Replay, Rebuilt, Advanced, LotFromEvent, Visible;
    var st := Store([e], []);
    OneEventReplay(e, asOf);
    RebuildOfOneSucceeds(e, asOf);
    RebuildStoresReplay(st, e.household, asOf);
    ProjectionsLeaveTheLog(st, e.household, asOf);
    RestartStep(World(st, {}, {}), Rebuild(e.household, asOf), e.household);
  }

  lemma FirstInsert(e: InventoryEvent, op: Op)
    requires op.AppendIfNew? && ToEvent(op.household, op.draft, op.now) == e && EventSound(e)
    ensures After([op]) == World(Store([e], []), {}, {})
  {
    assert InsertIfNew([], e) == Ok((e, true));
    hide InsertIfNew, EventSound;
    assert [] + [op] == [op] && [] + [e] == [e];
    AppendStep([], op);
    assert Appended(Store([], []), op) == [e];
    assert !Covered([], e);
  }

  lemma SecondIsNew(first: InventoryEvent, late: InventoryEvent, rows: seq<SnapshotRow>, op: Op)
    requires EventSound(late) && first.idempotencyKey != late.idempotencyKey && first.id != late.id
    requires op.AppendIfNew? && ToEvent(op.household, op.draft, op.now) == late
    ensures Appended(Store([first], rows), op) == [late]
  {
    assert InsertIfNew([first], late) == Ok((late, true));
  }

  /** Advancing to the very instant of the stored projection hands it back. */
  lemma AdvanceInPlace(st: Store, household: Uuid, s: InventorySnapshot)
    requires Get(st.rows, household) == Some(s) && s.household == household && Canonical(s.lots)
    requires TableRules(s.lots) && FitsColumns(s.lots)
    ensures Advanced(st, household, s.asOf).1 == Ok(s)
  {
    hide Get, TableRules, FitsColumns, Canonical;
    BackwardWindowEmpty(st.log, household, s.asOf, s.asOf);
    OrderedFold([]);
    AppliedExactly(s, Ordered([]), s.asOf);
    MergeIdentity(TableOf(s.lots));
    FreezeUnique(s);
  }

  /** What a run leaves when a second event is entered under the watermark of the rebuilt first. */
  ghost predicate Lost(ops: seq<Op>, household: Uuid, asOf: Instant) {
    var st := After(ops).store;
    && Get(st.rows, household).Some?
    && Get(st.rows, household).value.asOf == asOf
    && Get(st.rows, household).value != Replay(st.log, household, asOf)
    && Advanced(st, household, asOf).1.Ok?
    && Advanced(st, household, asOf).1.value != Replay(st.log, household, asOf)
  }

  lemma FirstIsStored(first: InventoryEvent, buy: Op, asOf: Instant)
    requires EventSound(first) && Visible(first, first.household, asOf)
    requires buy.AppendIfNew? && ToEvent(buy.household, buy.draft, buy.now) == first
    ensures var w := After([buy] + [Rebuild(first.household, asOf)]);
            && w.store.log == [first] && w.missed == {} && w.imposed == {}
            && Get(w.store.rows, first.household) == Some(InventorySnapshot(first.household, asOf, [LotFromEvent(first)]))
  {
    hide Get, EventSound, LotFromEvent, Next, After, ToEvent;
    FirstInsert(first, buy);
    AfterOneMore([buy], Rebuild(first.household, asOf));
    RebuildOfOne(first, asOf);
  }

  lemma SecondIsLost(first: InventoryEvent, late: InventoryEvent, buy: Op, enter: Op, asOf: Instant)
    requires EventSound(first) && Visible(first, first.household, asOf)
    requires EventSound(late) && Visible(late, first.household, asOf)
    requires first.idempotencyKey != late.idempotencyKey && first.id != late.id
    requires buy.AppendIfNew? && ToEvent(buy.household, buy.draft, buy.now) == first
    requires enter.AppendIfNew? && ToEvent(enter.household, enter.draft, enter.now) == late
    ensures Lost([buy] + [Rebuild(first.household, asOf)] + [enter], first.household, asOf)
  {
    var stored := InventorySnapshot(first.household, asOf, [LotFromEvent(first)]);
    OneLotFits(first);
    SingletonCanonical(LotFromEvent(first));
    hide Get, Replay, EventSound, Appended, LotFromEvent, Advanced, TableRules, FitsColumns, Canonical, After, ToEvent;
    FirstIsStored(first, buy, asOf);
    var ops := [buy] + [Rebuild(first.household, asOf)];
    var st := After(ops).store;
    SecondIsNew(first, late, st.rows, enter);
    AppendStep(ops, enter);
    assert late in Appended(st, enter) && Covered(st.rows, late);
    assert late in After(ops + [enter]).missed;
    StoredIsReplayIff(ops + [enter], first.household);
    AdvanceInPlace(After(ops + [enter]).store, first.household, stored);
  }

  function Purchase(key: string, at: Instant): NewInventoryEvent {
    NewInventoryEvent(0, Purchased, 1000, "g", Fridge, None, None, at, key, Some(at))
  }

  lemma PurchaseIsSound(household: Uuid, key: string, at: Instant, id: Uuid, now: Instant)
    requires key == "a" || key == "b"
    ensures EventSound(ToEvent(household, Draft(Purchase(key, at), id), now))
  {
    assert Strip("g") == "g";
    assert Lower("g") == "g";
    assert "g"[0] != ' ' && "g"[0] in "g" && key[0] != ' ' && key[0] in key;
  }

  /**
   * Buy, rebuild at 10, then enter a purchase stamped 5: neither the stored projection nor the advance to 10, which
   * succeeds, is the replay at 10.
   */
  lemma BackdatedPurchaseIsLost(household: Uuid, id: Uuid, other: Uuid)
    requires id != other
    ensures Lost([AppendIfNew(household, Draft(Purchase("a", 1), id), 1)] + [Rebuild(household, 10)] +
                 [AppendIfNew(household, Draft(Purchase("b", 5), other), 12)], household, 10)
  {
    var buy, enter := Draft(Purchase("a", 1), id), Draft(Purchase("b", 5), other);
    PurchaseIsSound(household, "a", 1, id, 1);
    PurchaseIsSound(household, "b", 5, other, 12);
    hide Lost, EventSound, NormalizeUnit;
    assert "a"[0] != "b"[0];
    SecondIsLost(ToEvent(household, buy, 1), ToEvent(household, enter, 12),
                 AppendIfNew(household, buy, 1), AppendIfNew(household, enter, 12), 10);
  }
}
