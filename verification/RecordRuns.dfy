/** Runs of the kitchen record, and what the stored projection is worth after any of them. */
module RecordRuns {
  import opened Basics
  import opened LotKeys
  import opened Lots
  import opened LotTables
  import opened Selections
  import opened Snapshots
  import opened Records
  import opened Stock
  import opened RecordInvariants

  /** One repository call. `Reorder` lets the table lay its rows out differently at any time. */
  datatype Op =
    | Append(household: Uuid, drafts: seq<Draft>, now: Instant)
    | AppendIfNew(household: Uuid, draft: Draft, now: Instant)
    | Rebuild(household: Uuid, asOf: Instant)
    | Advance(household: Uuid, asOf: Instant)
    | Save(household: Uuid, snapshot: InventorySnapshot)
    | Clear(household: Uuid)
    | Reorder(rows: seq<SnapshotRow>)

  datatype Reply =
    | Logged(events: seq<InventoryEvent>)
    | Stored(event: InventoryEvent, isNew: bool)
    | Shown(snapshot: InventorySnapshot)
    | Done
    | Failed(error: StoreError)

  ghost function Step(st: Store, op: Op): (Store, Reply) {
    match op
    case Append(h, drafts, now) =>
      (match InsertAll(st.log, ToEvents(h, drafts, now))
       case Ok(log) => (Store(log, st.rows), Logged(ToEvents(h, drafts, now)))
       case Err(error) => (st, Failed(error)))
    case AppendIfNew(h, draft, now) =>
      (match InsertIfNew(st.log, ToEvent(h, draft, now))
       case Ok((e, isNew)) => (if isNew then Store(st.log + [e], st.rows) else st, Stored(e, isNew))
       case Err(error) => (st, Failed(error)))
    case Rebuild(h, asOf) => Answer(Rebuilt(st, h, asOf))
    case Advance(h, asOf) => Answer(Advanced(st, h, asOf))
    case Save(h, s) =>
      (match Saved(st, h, s)
       case Ok(st') => (st', Done)
       case Err(error) => (st, Failed(error)))
    case Clear(h) => (Cleared(st, h), Done)
    case Reorder(rows) => (if multiset(rows) == multiset(st.rows) then Store(st.log, rows) else st, Done)
  }

  function Answer(outcome: (Store, Result<InventorySnapshot, StoreError>)): (Store, Reply) {
    (outcome.0, match outcome.1 case Ok(s) => Shown(s) case Err(error) => Failed(error))
  }

  // ------------------------------------------------------------ what slipped under a watermark

  /** The household already has a stored projection whose instant is at or after both of the event's clocks. */
  predicate Covered(rows: seq<SnapshotRow>, e: InventoryEvent) {
    match Get(rows, e.household)
    case None => false
    case Some(s) => Visible(e, e.household, s.asOf)
  }

  /** The events one call appended. */
  ghost function Appended(st: Store, op: Op): seq<InventoryEvent> {
    match Step(st, op).1
    case Logged(es) => es
    case Stored(e, isNew) => if isNew then [e] else []
    case _ => []
  }

  /** Whether this call replaced the household's projection by a full replay, or dropped it. */
  ghost predicate Restarts(st: Store, op: Op, household: Uuid) {
    match op
    case Rebuild(h, _) => h == household && Step(st, op).1.Shown?
    case Advance(h, _) => h == household && Get(st.rows, h).None? && Step(st, op).1.Shown?
    case Clear(h) => h == household
    case _ => false
  }

  /**
   * A store together with what happened to each household since its last restart: the events that went in under
   * its watermark, and whether a caller imposed a projection of its own making by saving it directly.
   */
  datatype World = World(store: Store, missed: set<InventoryEvent>, imposed: set<Uuid>)

  ghost function Next(w: World, op: Op): World {
    World(Step(w.store, op).0,
          (set e | e in w.missed && !Restarts(w.store, op, e.household)) +
          (set e | e in Appended(w.store, op) && Covered(w.store.rows, e)),
          (set h | h in w.imposed && !Restarts(w.store, op, h)) + Imposes(w.store, op))
  }

  ghost function Imposes(st: Store, op: Op): set<Uuid> {
    if op.Save? && Step(st, op).1.Done? then {op.household} else {}
  }

  ghost function After(ops: seq<Op>): World {
    if ops == [] then World(Store([], []), {}, {}) else Next(After(ops[..|ops| - 1]), ops[|ops| - 1])
  }

  lemma AfterOneMore(ops: seq<Op>, op: Op)
    ensures After(ops + [op]) == Next(After(ops), op)
  {
    hide Next;
    assert (ops + [op])[..|ops|] == ops;
  }

  lemma StoreAfterOneMore(ops: seq<Op>, op: Op)
    ensures After(ops + [op]).store == Step(After(ops).store, op).0
  {
    AfterOneMore(ops, op);
    hide Step, Restarts, Appended, Imposes;
  }

  // ------------------------------------------------------------ the invariant

  /** Known at `asOf`, and not among the missed. */
  ghost function Counted(log: seq<InventoryEvent>, household: Uuid, asOf: Instant, missed: set<InventoryEvent>): seq<InventoryEvent> {
    Where(log, (e: InventoryEvent) => Visible(e, household, asOf) && e !in missed)
  }

  /** Unless imposed, the stored projection of this household is the fold of what it counted, each event once. */
  ghost predicate Explained(w: World, household: Uuid) {
    household in w.imposed ||
    match Get(w.store.rows, household)
    case None => true
    case Some(s) => s == Freeze(household, s.asOf, FoldTable(Counted(w.store.log, household, s.asOf, w.missed)))
  }

  ghost predicate Inv(w: World) {
    && LogSound(w.store.log)
    && TableSound(w.store.rows)
    && (forall h: Uuid :: Explained(w, h))
    && (forall e :: e in w.missed ==> e in w.store.log && (e.household in w.imposed || Covered(w.store.rows, e)))
  }

  lemma CountedSame(log: seq<InventoryEvent>, household: Uuid, asOf: Instant, m: set<InventoryEvent>, n: set<InventoryEvent>)
    requires forall e :: e in log && e.household == household ==> (e in m <==> e in n)
    ensures Counted(log, household, asOf, m) == Counted(log, household, asOf, n)
  {
    WhereSame(log, (e: InventoryEvent) => Visible(e, household, asOf) && e !in m,
              (e: InventoryEvent) => Visible(e, household, asOf) && e !in n);
  }

  /** With nothing missed for the household, what is counted is what is known. */
  lemma CountedIsKnown(log: seq<InventoryEvent>, household: Uuid, asOf: Instant, missed: set<InventoryEvent>)
    requires forall e :: e in missed ==> e.household != household
    ensures Counted(log, household, asOf, missed) == Known(log, household, asOf)
  {
    WhereSame(log, (e: InventoryEvent) => Visible(e, household, asOf) && e !in missed,
              (e: InventoryEvent) => Visible(e, household, asOf));
  }

  // ------------------------------------------------------------ appends

  ghost function Noted(w: World, e: InventoryEvent): World {
    World(Store(w.store.log + [e], w.store.rows),
          if Covered(w.store.rows, e) then w.missed + {e} else w.missed,
          w.imposed)
  }

  lemma InsertKeepsExplained(w: World, e: InventoryEvent, household: Uuid)
    requires Inv(w) && Insertable(w.store.log, e)
    ensures Explained(Noted(w, e), household)
  {
    if Get(w.store.rows, household).Some? {
      var asOf := Get(w.store.rows, household).value.asOf;
      var log, missed := w.store.log, Noted(w, e).missed;
      assert e !in log;
      CountedSame(log, household, asOf, w.missed, missed);
      WhereAppend(log, e, (x: InventoryEvent) => Visible(x, household, asOf) && x !in missed);
      assert Counted(log + [e], household, asOf, missed) == Counted(log, household, asOf, missed);
      assert Explained(w, household);
    }
  }

  lemma InsertKeepsInv(w: World, e: InventoryEvent)
    requires Inv(w) && Insertable(w.store.log, e)
    ensures Inv(Noted(w, e))
  {
    InsertKeepsLogSound(w.store.log, e);
    forall h: Uuid
      ensures Explained(Noted(w, e), h)
    {
      InsertKeepsExplained(w, e, h);
    }
  }

  lemma MissedInBatch(w: World, es: seq<InventoryEvent>)
    requires es != []
    ensures Noted(w, es[0]).missed + (set e | e in es[1..] && Covered(w.store.rows, e)) ==
            w.missed + (set e | e in es && Covered(w.store.rows, e))
  {
    hide Covered;
    assert es == [es[0]] + es[1..];
  }

  lemma {:induction false} BatchKeepsInv(w: World, es: seq<InventoryEvent>)
    requires Inv(w) && InsertAll(w.store.log, es).Ok?
    requires forall e :: e in es ==> NormalizeUnit(e.unit) == e.unit
    ensures Inv(World(Store(InsertAll(w.store.log, es).value, w.store.rows),
                      w.missed + (set e | e in es && Covered(w.store.rows, e)), w.imposed))
    decreases |es|
  {
    hide Inv, Covered;
    var rows := w.store.rows;
    if es == [] {
      assert w.missed + (set e | e in es && Covered(rows, e)) == w.missed;
    } else {
      assert es[0] in es;
      var mid := Noted(w, es[0]);
      InsertKeepsInv(w, es[0]);
      BatchKeepsInv(mid, es[1..]);
      MissedInBatch(w, es);
    }
  }

  // ------------------------------------------------------------ projections

  /** Changing one household's rows, and only its missed events, explains every other household as before. */
  lemma OthersStayExplained(
    w: World, household: Uuid, s: InventorySnapshot, missed: set<InventoryEvent>, imposed: set<Uuid>, other: Uuid)
    requires Explained(w, other) && s.household == household != other && (other in w.imposed ==> other in imposed)
    requires missed <= w.missed && (forall e :: e in w.missed && e.household != household ==> e in missed)
    ensures var rows := RowsOfOthers(w.store.rows, household) + RowsOf(s);
            Get(rows, other) == Get(w.store.rows, other) && Explained(World(Store(w.store.log, rows), missed, imposed), other)
  {
    hide Get;
    SaveFrame(w.store, household, s, other);
    if Get(w.store.rows, other).Some? {
      CountedSame(w.store.log, other, Get(w.store.rows, other).value.asOf, w.missed, missed);
    }
  }

  /** Storing the fold of what is counted keeps the invariant, with the household's missed events as given. */
  lemma SaveKeepsInv(w: World, s: InventorySnapshot, missed: set<InventoryEvent>)
    requires Inv(w) && Saved(w.store, s.household, s).Ok?
    requires s == Freeze(s.household, s.asOf, FoldTable(Counted(w.store.log, s.household, s.asOf, missed)))
    requires missed <= w.missed && (forall e :: e in w.missed && e.household != s.household ==> e in missed)
    requires forall e :: e in missed && e.household == s.household ==> s.lots != [] && Visible(e, s.household, s.asOf)
    ensures Inv(World(Saved(w.store, s.household, s).value, missed, w.imposed - {s.household}))
  {
    hide LogSound, TableSound, Canonical, Get, TableRules, FitsColumns, Freeze;
    var h, st, imposed := s.household, Saved(w.store, s.household, s).value, w.imposed - {s.household};
    FreezeCanonical(h, s.asOf, FoldTable(Counted(w.store.log, h, s.asOf, missed)));
    GetAfterSave(w.store, h, s, st.rows);
    forall other: Uuid
      ensures Explained(World(st, missed, imposed), other)
      ensures other != h ==> Get(st.rows, other) == Get(w.store.rows, other)
    {
      if other != h {
        OthersStayExplained(w, h, s, missed, imposed, other);
      }
    }
  }

  /** Storing anything at all keeps the invariant, with the household's projection no longer vouched for. */
  lemma ImposeKeepsInv(w: World, s: InventorySnapshot)
    requires Inv(w) && Saved(w.store, s.household, s).Ok?
    ensures Inv(World(Saved(w.store, s.household, s).value, w.missed, w.imposed + {s.household}))
  {
    var h, st, imposed := s.household, Saved(w.store, s.household, s).value, w.imposed + {s.household};
    SavedTableSound(w.store.rows, h, s);
    hide LogSound, TableSound, Get, TableRules, FitsColumns;
    forall other: Uuid
      ensures Explained(World(st, w.missed, imposed), other)
      ensures other != h ==> Get(st.rows, other) == Get(w.store.rows, other)
    {
      if other != h {
        OthersStayExplained(w, h, s, w.missed, imposed, other);
      }
    }
  }

  lemma CountedMeetsRules(w: World, household: Uuid, asOf: Instant, missed: set<InventoryEvent>)
    requires LogSound(w.store.log)
    ensures TableRules(Freeze(household, asOf, FoldTable(Counted(w.store.log, household, asOf, missed))).lots)
  {
    FrozenMeetsTableRules(household, asOf, Counted(w.store.log, household, asOf, missed));
  }

  lemma RebuildKeepsInv(w: World, household: Uuid, asOf: Instant)
    requires Inv(w)
    ensures var (st, r) := Rebuilt(w.store, household, asOf);
            && (r.Err? ==> r.error == NumericOverflow && st == w.store)
            && (r.Ok? ==> r.value == Replay(w.store.log, household, asOf) &&
                          Inv(World(st, (set e | e in w.missed && e.household != household), w.imposed - {household})))
  {
    var s := Replay(w.store.log, household, asOf);
    var missed := set e | e in w.missed && e.household != household;
    CountedIsKnown(w.store.log, household, asOf, missed);
    CountedMeetsRules(w, household, asOf, missed);
    if Saved(w.store, household, s).Ok? {
      SaveKeepsInv(w, s, missed);
    }
  }

  /** What is counted later is what was counted earlier, and the window. */
  lemma CountedGrowsByWindow(
    log: seq<InventoryEvent>, household: Uuid, after: Instant, asOf: Instant, missed: set<InventoryEvent>)
    requires after <= asOf
    requires forall e :: e in missed && e.household == household ==> Visible(e, household, after)
    ensures FoldTable(Counted(log, household, asOf, missed)) ==
            Merge(FoldTable(Counted(log, household, after, missed)), FoldTable(Window(log, household, after, asOf)))
  {
    FoldSplit(log,
              (e: InventoryEvent) => Visible(e, household, asOf) && e !in missed,
              (e: InventoryEvent) => Visible(e, household, after) && e !in missed,
              (e: InventoryEvent) => Visible(e, household, asOf) && (e.occurredAt > after || e.recordedAt > after));
  }

  /** What folding the window into the stored projection means: their tables merged, at the new instant. */
  ghost function Caught(st: Store, household: Uuid, asOf: Instant): (next: InventorySnapshot)
    requires Get(st.rows, household).Some?
    ensures next.household == household && next.asOf == asOf && Canonical(next.lots)
  {
    var s := Get(st.rows, household).value;
    var table := Merge(TableOf(s.lots), FoldTable(Window(st.log, household, s.asOf, asOf)));
    FreezeCanonical(household, asOf, table);
    Freeze(household, asOf, table)
  }

  /** Whatever is stored, the fold accepts the whole window, and the result meets the table's rules. */
  lemma WindowIsAccepted(st: Store, household: Uuid, asOf: Instant)
    requires LogSound(st.log) && TableSound(st.rows) && Get(st.rows, household).Some?
    requires Get(st.rows, household).value.asOf <= asOf
    ensures var s := Get(st.rows, household).value;
            Applied(s, Ordered(Window(st.log, household, s.asOf, asOf)), asOf) == Ok(Caught(st, household, asOf))
    ensures TableRules(Caught(st, household, asOf).lots)
  {
    var s := Get(st.rows, household).value;
    var window := Window(st.log, household, s.asOf, asOf);
    GetCanonical(st.rows, household);
    OrderedFold(window);
    AppliedExactly(s, Ordered(window), asOf);
    StoredMeetsRules(st.rows, household);
    FoldMeetsLotRules(window);
    MergeMeetsLotRules(TableOf(s.lots), FoldTable(window));
    FreezeMeetsTableRules(household, asOf, Merge(TableOf(s.lots), FoldTable(window)));
  }

  /** So an advance from a stored projection stores the caught-up one, or is refused by the table. */
  lemma AdvanceSavesCaught(st: Store, household: Uuid, asOf: Instant)
    requires LogSound(st.log) && TableSound(st.rows) && Get(st.rows, household).Some?
    requires Get(st.rows, household).value.asOf <= asOf
    ensures Advanced(st, household, asOf) == SaveAndReturn(st, Caught(st, household, asOf))
    ensures TableRules(Caught(st, household, asOf).lots)
  {
    WindowIsAccepted(st, household, asOf);
    hide LogSound, TableSound, Get, TableRules, Applied, Caught, Saved, Window;
  }

  lemma StoredMeetsRules(rows: seq<SnapshotRow>, household: Uuid)
    requires TableSound(rows) && Get(rows, household).Some?
    ensures TableRules(Get(rows, household).value.lots)
    ensures LotsMeetRules(TableOf(Get(rows, household).value.lots))
  {
    var s := Get(rows, household).value;
    GetCanonical(rows, household);
    hide Get, Canonical;
    CanonicalIsDistinct(s.lots);
    TableMembers(s.lots);
    forall k | k in TableOf(s.lots)
      ensures LotRules(LotState(k, TableOf(s.lots)[k]))
    {
      assert LotState(k, TableOf(s.lots)[k]) in s.lots;
    }
  }

  /** For a projection that was not imposed, that is the fold of what is counted later on. */
  lemma AdvanceCounts(w: World, household: Uuid, asOf: Instant)
    requires Inv(w) && Get(w.store.rows, household).Some? && household !in w.imposed
    requires Get(w.store.rows, household).value.asOf <= asOf
    ensures Caught(w.store, household, asOf) ==
            Freeze(household, asOf, FoldTable(Counted(w.store.log, household, asOf, w.missed)))
  {
    hide LogSound, TableSound, Get;
    var s, log, missed := Get(w.store.rows, household).value, w.store.log, w.missed;
    assert Explained(w, household);
    assert forall e :: e in missed && e.household == household ==> Covered(w.store.rows, e);
    CountedGrowsByWindow(log, household, s.asOf, asOf, missed);
    FreezeCanonical(household, s.asOf, FoldTable(Counted(log, household, s.asOf, missed)));
  }

  lemma AdvanceKeepsInv(w: World, household: Uuid, asOf: Instant)
    requires Inv(w) && Get(w.store.rows, household).Some?
    ensures var (st, r) := Advanced(w.store, household, asOf);
            && (r.Err? ==> r.error == NumericOverflow && st == w.store)
            && Inv(World(st, w.missed, w.imposed))
  {
    hide LogSound, TableSound, Get, TableRules, FitsColumns, Caught, Explained, Covered, Applied, Replay;
    if Get(w.store.rows, household).value.asOf <= asOf {
      AdvanceSavesCaught(w.store, household, asOf);
      hide Advanced;
      var next := Caught(w.store, household, asOf);
      if Saved(w.store, household, next).Ok? {
        if household in w.imposed {
          ImposeKeepsInv(w, next);
          assert w.imposed + {household} == w.imposed;
        } else {
          CaughtKeepsInv(w, household, asOf);
          assert w.imposed - {household} == w.imposed;
        }
      }
    }
  }

  lemma CaughtKeepsInv(w: World, household: Uuid, asOf: Instant)
    requires Inv(w) && Get(w.store.rows, household).Some? && household !in w.imposed
    requires Get(w.store.rows, household).value.asOf <= asOf
    requires Saved(w.store, household, Caught(w.store, household, asOf)).Ok?
    ensures Inv(World(Saved(w.store, household, Caught(w.store, household, asOf)).value, w.missed, w.imposed - {household}))
  {
    hide LogSound, TableSound, Get, TableRules;
    AdvanceCounts(w, household, asOf);
    LotsNeverVanish(w.store, household, asOf);
    forall e | e in w.missed && e.household == household
      ensures Visible(e, household, asOf)
    {
      assert Covered(w.store.rows, e);
    }
    SaveKeepsInv(w, Caught(w.store, household, asOf), w.missed);
  }

  /** A stored projection has lots, and an advance only adds to them. */
  lemma LotsNeverVanish(st: Store, household: Uuid, asOf: Instant)
    requires TableSound(st.rows) && Get(st.rows, household).Some?
    ensures Caught(st, household, asOf).lots != []
  {
    var s, next := Get(st.rows, household).value, Caught(st, household, asOf);
    var window := FoldTable(Window(st.log, household, s.asOf, asOf));
    GetCanonical(st.rows, household);
    var row := RowsFor(st.rows, household)[0];
    assert row in RowsFor(st.rows, household);
    assert row.lot in s.lots;
    TableOfNonEmpty(s.lots);
    FreezeCanonical(household, asOf, Merge(TableOf(s.lots), window));
    var k :| k in TableOf(s.lots);
    assert At(Merge(TableOf(s.lots), window), k).Some?;
    TableOfNonEmpty(next.lots);
  }

  lemma ClearKeepsInv(w: World, household: Uuid)
    requires Inv(w)
    ensures Inv(World(Cleared(w.store, household), (set e | e in w.missed && e.household != household), w.imposed - {household}))
  {
    hide LogSound, TableSound, Get;
    var nothing := EmptySnapshot(household, 0);
    assert RowsOfOthers(w.store.rows, household) + RowsOf(nothing) == RowsOfOthers(w.store.rows, household);
    assert Saved(w.store, household, nothing) == Ok(Cleared(w.store, household));
    GetAfterSave(w.store, household, nothing, Cleared(w.store, household).rows);
    var next := World(Cleared(w.store, household), (set e | e in w.missed && e.household != household), w.imposed - {household});
    forall other: Uuid
      ensures Explained(next, other)
      ensures other != household ==> Get(next.store.rows, other) == Get(w.store.rows, other)
    {
      if other != household {
        OthersStayExplained(w, household, nothing, next.missed, next.imposed, other);
      }
    }
  }

  lemma ReorderKeepsInv(w: World, rows: seq<SnapshotRow>)
    requires Inv(w) && multiset(rows) == multiset(w.store.rows)
    ensures Inv(World(Store(w.store.log, rows), w.missed, w.imposed))
  {
    forall h: Uuid
      ensures TableSound(rows) && Get(rows, h) == Get(w.store.rows, h)
      ensures Explained(World(Store(w.store.log, rows), w.missed, w.imposed), h)
    {
      GetForgetsOrder(w.store.rows, rows, h);
      assert Explained(w, h);
    }
    var h0: Uuid := 0;
    assert Get(rows, h0) == Get(w.store.rows, h0);
  }

  // ------------------------------------------------------------ every run

  /** A call that restarts no household and imposes nothing keeps both histories, up to what it appended. */
  lemma QuietStep(w: World, op: Op)
    requires forall h: Uuid :: !Restarts(w.store, op, h)
    requires Imposes(w.store, op) == {}
    ensures Next(w, op) == World(Step(w.store, op).0,
                                 w.missed + (set e | e in Appended(w.store, op) && Covered(w.store.rows, e)), w.imposed)
  {
  }

  /** A call that restarts one household forgets what happened to it, and to no other. */
  lemma RestartStep(w: World, op: Op, household: Uuid)
    requires forall h: Uuid :: Restarts(w.store, op, h) <==> h == household
    requires Imposes(w.store, op) == {} && Appended(w.store, op) == []
    ensures Next(w, op) == World(Step(w.store, op).0, (set e | e in w.missed && e.household != household), w.imposed - {household})
  {
  }

  lemma BatchCallKeepsInv(w: World, op: Op)
    requires Inv(w) && op.Append?
    ensures Inv(Next(w, op))
  {
    hide Inv, Covered, Get, NormalizeUnit, InsertAll;
    QuietStep(w, op);
    var es := ToEvents(op.household, op.drafts, op.now);
    if InsertAll(w.store.log, es).Ok? {
      forall e | e in es
        ensures NormalizeUnit(e.unit) == e.unit
      {
        var i :| 0 <= i < |es| && es[i] == e;
        NormalizeUnitIdempotent(op.drafts[i].event.unit);
      }
      BatchKeepsInv(w, es);
      assert Appended(w.store, op) == es;
    } else {
      assert Appended(w.store, op) == [];
      assert Next(w, op).missed == w.missed;
    }
  }

  lemma DeliveryKeepsInv(w: World, op: Op)
    requires Inv(w) && op.AppendIfNew?
    ensures Inv(Next(w, op))
  {
    hide Inv, Covered, Get;
    QuietStep(w, op);
    var e := ToEvent(op.household, op.draft, op.now);
    if InsertIfNew(w.store.log, e) == Ok((e, true)) {
      NormalizeUnitIdempotent(op.draft.event.unit);
      BatchKeepsInv(w, [e]);
      assert InsertAll(w.store.log, [e]) == Ok(w.store.log + [e]);
      assert Appended(w.store, op) == [e];
    } else {
      OnlyNewIsAppended(w.store, op);
      assert Next(w, op).missed == w.missed;
    }
  }

  /** A delivery appends its own event or nothing. */
  lemma OnlyNewIsAppended(st: Store, op: Op)
    requires op.AppendIfNew?
    ensures var e := ToEvent(op.household, op.draft, op.now);
            InsertIfNew(st.log, e) == Ok((e, true)) || (Appended(st, op) == [] && Step(st, op).0 == st)
  {
    hide FindByKey, EventRules;
  }

  lemma RestartKeepsInv(w: World, op: Op)
    requires Inv(w) && (op.Rebuild? || (op.Advance? && Get(w.store.rows, op.household).None?))
    ensures Inv(Next(w, op))
  {
    hide Inv, Covered, Get, Rebuilt, Advanced;
    var h, asOf := op.household, op.asOf;
    RebuildKeepsInv(w, h, asOf);
    AdvanceWithoutStored(w.store, h, asOf);
    assert Step(w.store, op) == Answer(Rebuilt(w.store, h, asOf));
    if Step(w.store, op).1.Shown? {
      RestartStep(w, op, h);
    } else {
      QuietStep(w, op);
      assert Next(w, op).missed == w.missed;
    }
  }

  lemma ProjectionKeepsInv(w: World, op: Op)
    requires Inv(w) && (op.Rebuild? || op.Advance?)
    ensures Inv(Next(w, op))
  {
    hide Inv, Covered, Get, Rebuilt, Advanced;
    if op.Rebuild? || Get(w.store.rows, op.household).None? {
      RestartKeepsInv(w, op);
    } else {
      AdvanceKeepsInv(w, op.household, op.asOf);
      QuietStep(w, op);
      assert Next(w, op).missed == w.missed;
    }
  }

  lemma AdvanceWithoutStored(st: Store, household: Uuid, asOf: Instant)
    ensures Get(st.rows, household).None? ==> Advanced(st, household, asOf) == Rebuilt(st, household, asOf)
  {
  }

  lemma DirectSaveKeepsInv(w: World, op: Op)
    requires Inv(w) && op.Save?
    ensures Inv(Next(w, op))
  {
    hide Inv, Covered, TableRules, FitsColumns;
    assert Next(w, op).missed == w.missed;
    if Saved(w.store, op.household, op.snapshot).Ok? {
      ImposeKeepsInv(w, op.snapshot);
      assert Next(w, op).imposed == w.imposed + {op.household};
    } else {
      assert Next(w, op).imposed == w.imposed;
    }
  }

  lemma StepKeepsInv(w: World, op: Op)
    requires Inv(w)
    ensures Inv(Next(w, op))
  {
    hide Inv, Covered, Get, Rebuilt, Advanced;
    match op
    case Append(_, _, _) => BatchCallKeepsInv(w, op);
    case AppendIfNew(_, _, _) => DeliveryKeepsInv(w, op);
    case Rebuild(_, _) => ProjectionKeepsInv(w, op);
    case Advance(_, _) => ProjectionKeepsInv(w, op);
    case Save(_, _) => DirectSaveKeepsInv(w, op);
    case Clear(h) =>
      ClearKeepsInv(w, h);
      RestartStep(w, op, h);
    case Reorder(rows) =>
      QuietStep(w, op);
      assert Next(w, op).missed == w.missed;
      if multiset(rows) == multiset(w.store.rows) {
        ReorderKeepsInv(w, rows);
      }
  }

  /**
   * Every reachable state: each stored projection is the fold of its known events less the missed ones, except where
   * a caller saved one of its own making and has not restarted it since.
   */
  lemma {:induction false} RunsKeepInv(ops: seq<Op>)
    ensures Inv(After(ops))
  {
    if ops == [] {
    } else {
      RunsKeepInv(ops[..|ops| - 1]);
      StepKeepsInv(After(ops[..|ops| - 1]), ops[|ops| - 1]);
    }
  }

  // ------------------------------------------------------------ the gap, exactly

  ghost function MissedOf(w: World, household: Uuid): seq<InventoryEvent> {
    Where(w.store.log, (e: InventoryEvent) => e.household == household && e in w.missed)
  }

  /** What is counted and what was missed together make up what is known, at any instant past the watermark. */
  lemma CountedPlusMissed(w: World, household: Uuid, asOf: Instant)
    requires Inv(w) && Get(w.store.rows, household).Some? && household !in w.imposed
    requires Get(w.store.rows, household).value.asOf <= asOf
    ensures FoldTable(Known(w.store.log, household, asOf)) ==
            Merge(FoldTable(Counted(w.store.log, household, asOf, w.missed)), FoldTable(MissedOf(w, household)))
  {
    forall e | e in w.store.log && e.household == household && e in w.missed
      ensures Visible(e, household, asOf)
    {
      assert Covered(w.store.rows, e);
    }
    hide Inv, Get;
    FoldSplit(w.store.log,
              (e: InventoryEvent) => Visible(e, household, asOf),
              (e: InventoryEvent) => Visible(e, household, asOf) && e !in w.missed,
              (e: InventoryEvent) => e.household == household && e in w.missed);
  }

  /** After any run, the stored projection falls short of a replay by exactly the fold of the missed events. */
  lemma GapIsTheMissedFold(ops: seq<Op>, household: Uuid)
    requires Get(After(ops).store.rows, household).Some? && household !in After(ops).imposed
    ensures var w := After(ops);
            var s := Get(w.store.rows, household).value;
            Merge(TableOf(s.lots), FoldTable(MissedOf(w, household))) ==
            TableOf(Replay(w.store.log, household, s.asOf).lots)
  {
    var w := After(ops);
    var s := Get(w.store.rows, household).value;
    RunsKeepInv(ops);
    assert Explained(w, household);
    CountedPlusMissed(w, household, s.asOf);
    FreezeCanonical(household, s.asOf, FoldTable(Counted(w.store.log, household, s.asOf, w.missed)));
    FreezeCanonical(household, s.asOf, FoldTable(Known(w.store.log, household, s.asOf)));
  }

  lemma LotCounts(es: seq<InventoryEvent>, e: InventoryEvent)
    requires e in es
    ensures KeyFor(e) in FoldTable(es) && FoldTable(es)[KeyFor(e)].eventCount > 0
  {
    assert e in EventsOfLot(es, KeyFor(e));
    EveryLotIsItsEvents(es, KeyFor(e));
  }

  /** Counting fewer events never folds to the same table. */
  lemma MissingShows(m: LotTable, es: seq<InventoryEvent>)
    ensures Merge(m, FoldTable(es)) == m <==> es == []
  {
    if es == [] {
      MergeIdentity(m);
    } else {
      var k := KeyFor(es[0]);
      LotCounts(es, es[0]);
      assert At(Merge(m, FoldTable(es)), k) != At(m, k);
    }
  }

  /** At any instant from the watermark on, what the projection counts agrees with a replay iff nothing was missed. */
  lemma AgreesIffNothingMissed(w: World, household: Uuid, asOf: Instant)
    requires Inv(w) && Get(w.store.rows, household).Some? && household !in w.imposed
    requires Get(w.store.rows, household).value.asOf <= asOf
    ensures (Freeze(household, asOf, FoldTable(Counted(w.store.log, household, asOf, w.missed))) ==
             Replay(w.store.log, household, asOf)) <==>
            forall e :: e in w.missed ==> e.household != household
  {
    var counted := FoldTable(Counted(w.store.log, household, asOf, w.missed));
    CountedPlusMissed(w, household, asOf);
    FreezeCanonical(household, asOf, counted);
    FreezeCanonical(household, asOf, FoldTable(Known(w.store.log, household, asOf)));
    MissingShows(counted, MissedOf(w, household));
    if MissedOf(w, household) == [] {
      forall e | e in w.missed
        ensures e.household != household
      {
        assert e in w.store.log;
        assert e !in MissedOf(w, household);
      }
    } else {
      var e := MissedOf(w, household)[0];
      assert e in MissedOf(w, household);
    }
  }

  /** After any run, a stored projection equals the replay at its watermark iff no event is missed for its household. */
  lemma StoredIsReplayIff(ops: seq<Op>, household: Uuid)
    requires Get(After(ops).store.rows, household).Some? && household !in After(ops).imposed
    ensures var w := After(ops);
            var s := Get(w.store.rows, household).value;
            (s == Replay(w.store.log, household, s.asOf)) <==>
            forall e :: e in w.missed ==> e.household != household
  {
    RunsKeepInv(ops);
    assert Explained(After(ops), household);
    AgreesIffNothingMissed(After(ops), household, Get(After(ops).store.rows, household).value.asOf);
  }

  /**
   * After any run, an advance that is not refused for size returns the full replay, unless it starts from a
   * stored projection at or before the new instant for which events were missed; then it never does.
   */
  lemma AdvanceIsReplayIff(ops: seq<Op>, household: Uuid, asOf: Instant)
    requires household !in After(ops).imposed
    ensures var w := After(ops);
            var r := Advanced(w.store, household, asOf).1;
            && (r.Err? ==> r.error == NumericOverflow)
            && (r.Ok? ==>
                (r.value == Replay(w.store.log, household, asOf) <==>
                 (Get(w.store.rows, household).Some? && Get(w.store.rows, household).value.asOf <= asOf ==>
                  forall e :: e in w.missed ==> e.household != household)))
  {
    var w := After(ops);
    RunsKeepInv(ops);
    if Get(w.store.rows, household).None? {
      RebuildKeepsInv(w, household, asOf);
    } else {
      AdvanceKeepsInv(w, household, asOf);
      if Get(w.store.rows, household).value.asOf <= asOf {
        AdvanceSavesCaught(w.store, household, asOf);
        hide Get, Inv, Advanced, FitsColumns, TableRules;
        AdvanceCounts(w, household, asOf);
        AgreesIffNothingMissed(w, household, asOf);
      }
    }
  }

  lemma ProjectionsLeaveTheLog(st: Store, household: Uuid, asOf: Instant)
    ensures Rebuilt(st, household, asOf).0.log == st.log == Advanced(st, household, asOf).0.log
  {
    hide Get, TableRules, FitsColumns, Applied, Replay;
  }

  /** A rebuild forgets whatever was stored, however it came to be there: what it stores is the replay. */
  lemma RebuildStoresReplay(st: Store, household: Uuid, asOf: Instant)
    requires Rebuilt(st, household, asOf).1.Ok?
    ensures var s := Replay(st.log, household, asOf);
            Get(Rebuilt(st, household, asOf).0.rows, household) == if s.lots == [] then None else Some(s)
  {
    var s := Replay(st.log, household, asOf);
    FreezeCanonical(household, asOf, FoldTable(Known(st.log, household, asOf)));
    assert s.household == household && Canonical(s.lots);
    hide Get, TableRules, FitsColumns, Canonical, Replay, RowsOf, RowsOfOthers, Freeze, FoldTable, Known;
    ReadBack(st.rows, household, s);
  }

  /** From any reachable state one rebuild closes the gap: what is stored is the replay, and so is every next advance. */
  lemma RebuildClosesTheGap(ops: seq<Op>, household: Uuid, asOf: Instant, later: Instant)
    requires Rebuilt(After(ops).store, household, asOf).1.Ok?
    ensures var st := After(ops + [Rebuild(household, asOf)]).store;
            && st.log == After(ops).store.log
            && (var s := Replay(st.log, household, asOf);
                Get(st.rows, household) == if s.lots == [] then None else Some(s))
            && (Advanced(st, household, later).1.Ok? ==>
                Advanced(st, household, later).1.value == Replay(st.log, household, later))
  {
    hide Get, Covered, Rebuilt, Advanced, Replay;
    var all := ops + [Rebuild(household, asOf)];
    assert all[..|ops|] == ops;
    ProjectionsLeaveTheLog(After(ops).store, household, asOf);
    RebuildStoresReplay(After(ops).store, household, asOf);
    RestartStep(After(ops), Rebuild(household, asOf), household);
    AdvanceIsReplayIff(all, household, later);
  }

  /** What an advance leaves stored: the caught-up projection when it moved forward, the old one otherwise. */
  lemma StoredAfterAdvance(st: Store, household: Uuid, asOf: Instant)
    requires LogSound(st.log) && TableSound(st.rows) && Get(st.rows, household).Some?
    ensures var s := Get(st.rows, household).value;
            Get(Advanced(st, household, asOf).0.rows, household) ==
            Some(if s.asOf <= asOf && Advanced(st, household, asOf).1.Ok? then Caught(st, household, asOf) else s)
  {
    hide Get, TableRules, FitsColumns, Canonical, Applied, Caught;
    if Get(st.rows, household).value.asOf <= asOf {
      AdvanceSavesCaught(st, household, asOf);
      hide Advanced;
      LotsNeverVanish(st, household, asOf);
      ReadBack(st.rows, household, Caught(st, household, asOf));
    }
  }

  lemma AdvanceOnlyMovesRows(w: World, household: Uuid, asOf: Instant)
    requires Get(w.store.rows, household).Some?
    ensures var w' := Next(w, Advance(household, asOf));
            && w'.store == Advanced(w.store, household, asOf).0 && w'.store.log == w.store.log
            && w'.missed == w.missed && w'.imposed == w.imposed && MissedOf(w', household) == MissedOf(w, household)
  {
    ProjectionsLeaveTheLog(w.store, household, asOf);
    hide Get, Advanced, Rebuilt, Covered;
    QuietStep(w, Advance(household, asOf));
    assert Next(w, Advance(household, asOf)).missed == w.missed;
  }

  /**
   * From any reachable state an advance neither shrinks nor widens the gap: one and the same table of missed events
   * separates the projection stored before from the replay at its watermark, and the one stored after from the
   * replay at the new watermark.
   */
  lemma AdvanceKeepsTheGap(ops: seq<Op>, household: Uuid, asOf: Instant)
    requires Get(After(ops).store.rows, household).Some? && household !in After(ops).imposed
    ensures var st, st' := After(ops).store, After(ops + [Advance(household, asOf)]).store;
            var s := Get(st.rows, household).value;
            var gap := FoldTable(MissedOf(After(ops), household));
            && st'.log == st.log
            && Get(st'.rows, household).Some?
            && (s.asOf <= asOf && Advanced(st, household, asOf).1.Ok? ==> Get(st'.rows, household).value.asOf == asOf)
            && Merge(TableOf(s.lots), gap) == TableOf(Replay(st.log, household, s.asOf).lots)
            && (var s' := Get(st'.rows, household).value;
                Merge(TableOf(s'.lots), gap) == TableOf(Replay(st.log, household, s'.asOf).lots))
  {
    var all, w := ops + [Advance(household, asOf)], After(ops);
    assert all[..|ops|] == ops;
    RunsKeepInv(ops);
    hide Get, TableSound, LogSound, Advanced, Rebuilt, Covered, Replay, Explained, Freeze, FoldTable, Merge, TableOf, MissedOf, Where;
    StoredAfterAdvance(w.store, household, asOf);
    AdvanceOnlyMovesRows(w, household, asOf);
    GapIsTheMissedFold(ops, household);
    GapIsTheMissedFold(all, household);
  }

  // ------------------------------------------------------------ guarded runs

  /** No call of the run appends an event under its household's stored watermark, or saves a snapshot directly. */
  ghost predicate Guarded(ops: seq<Op>) {
    forall i :: 0 <= i < |ops| ==> GuardedAt(ops, i)
  }

  ghost predicate GuardedAt(ops: seq<Op>, i: nat)
    requires i < |ops|
  {
    var st := After(ops[..i]).store;
    !ops[i].Save? && forall e :: e in Appended(st, ops[i]) ==> !Covered(st.rows, e)
  }

  lemma {:induction false} GuardedMissesNothing(ops: seq<Op>)
    requires Guarded(ops)
    ensures After(ops).missed == {} && After(ops).imposed == {}
  {
    if ops == [] {
    } else {
      var n := |ops| - 1;
      forall i | 0 <= i < n
        ensures GuardedAt(ops[..n], i)
      {
        assert GuardedAt(ops, i);
        assert ops[..n][..i] == ops[..i];
      }
      GuardedMissesNothing(ops[..n]);
      assert GuardedAt(ops, n);
    }
  }

  /** The claim the projection rests on: over every guarded run, stored projections and advances are replays. */
  lemma GuardedRunsReplay(ops: seq<Op>, household: Uuid, asOf: Instant)
    requires Guarded(ops)
    ensures var st := After(ops).store;
            && (match Get(st.rows, household)
                case None => true
                case Some(s) => s == Replay(st.log, household, s.asOf))
            && (match Advanced(st, household, asOf).1
                case Err(error) => error == NumericOverflow
                case Ok(s) => s == Replay(st.log, household, asOf))
  {
    GuardedMissesNothing(ops);
    if Get(After(ops).store.rows, household).Some? {
      StoredIsReplayIff(ops, household);
    }
    AdvanceIsReplayIff(ops, household, asOf);
  }

  // ------------------------------------------------------------ the table's rules

  /**
   * After any run, direct saves included, what is stored meets the snapshot table's rules, the fold accepts every
   * window, and a rebuild or an advance is refused exactly when a total no longer fits its column.
   */
  lemma OnlySizeIsRefused(ops: seq<Op>, household: Uuid, asOf: Instant)
    ensures var st := After(ops).store;
            && (Get(st.rows, household).Some? ==> TableRules(Get(st.rows, household).value.lots))
            && TableRules(Replay(st.log, household, asOf).lots)
            && (Rebuilt(st, household, asOf).1.Ok? <==> FitsColumns(Replay(st.log, household, asOf).lots))
            && (Get(st.rows, household).Some? && Get(st.rows, household).value.asOf <= asOf ==>
                (Advanced(st, household, asOf).1.Ok? <==> FitsColumns(Caught(st, household, asOf).lots)))
  {
    var w := After(ops);
    RunsKeepInv(ops);
    FrozenMeetsTableRules(household, asOf, Known(w.store.log, household, asOf));
    if Get(w.store.rows, household).Some? {
      StoredMeetsRules(w.store.rows, household);
      if Get(w.store.rows, household).value.asOf <= asOf {
        AdvanceSavesCaught(w.store, household, asOf);
      }
    }
  }

  /** Normalising the unit of a logged event again never moves it to another lot. */
  lemma StoredUnitsStay(ops: seq<Op>, e: InventoryEvent)
    requires e in After(ops).store.log
    ensures KeyFor(e).unit == e.unit && KeyFor(e.(unit := NormalizeUnit(e.unit))) == KeyFor(e)
  {
    RunsKeepInv(ops);
    assert EventSound(e);
  }
}
