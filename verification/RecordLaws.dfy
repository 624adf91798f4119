/** Laws of the record that span many calls: telescoping windows, a fixed past, tenancy, monotone time. */
module RecordLaws {
  import opened Basics
  import opened LotKeys
  import opened Lots
  import opened LotTables
  import opened Selections
  import opened Sorting
  import opened Snapshots
  import opened Records
  import opened RecordInvariants
  import opened RecordRuns

  // ------------------------------------------------------------ windows telescope

  /** `events_known_between` is exactly known(asOf) minus known(after): nothing lost, nothing repeated. */
  lemma WindowPartition(log: seq<InventoryEvent>, household: Uuid, after: Instant, asOf: Instant)
    requires after <= asOf
    ensures multiset(Known(log, household, asOf)) ==
            multiset(Known(log, household, after)) + multiset(Window(log, household, after, asOf))
    ensures forall e :: e in Window(log, household, after, asOf) <==>
                        e in Known(log, household, asOf) && e !in Known(log, household, after)
  {
    WherePartition(log,
                   (e: InventoryEvent) => Visible(e, household, asOf),
                   (e: InventoryEvent) => Visible(e, household, after),
                   (e: InventoryEvent) => Visible(e, household, asOf) && (e.occurredAt > after || e.recordedAt > after));
  }

  /** A window that ends before it starts is empty. */
  lemma BackwardWindowEmpty(log: seq<InventoryEvent>, household: Uuid, after: Instant, asOf: Instant)
    requires asOf <= after
    ensures Window(log, household, after, asOf) == []
  {
    WhereNone(log, (e: InventoryEvent) => Visible(e, household, asOf) && (e.occurredAt > after || e.recordedAt > after));
  }

  ghost predicate Nondecreasing(ts: seq<Instant>) {
    forall i, j :: 0 <= i < j < |ts| ==> ts[i] <= ts[j]
  }

  /** The windows between consecutive checkpoints, one after the other. */
  function Windows(log: seq<InventoryEvent>, household: Uuid, ts: seq<Instant>): seq<InventoryEvent> {
    if |ts| < 2 then []
    else Windows(log, household, ts[..|ts| - 1]) + Ordered(Window(log, household, ts[|ts| - 2], ts[|ts| - 1]))
  }

  /** Advancing through the checkpoints, reading only one window at a time. */
  ghost function Chain(log: seq<InventoryEvent>, household: Uuid, ts: seq<Instant>): Result<InventorySnapshot, FoldError>
    requires ts != []
  {
    if |ts| == 1 then Folded(Ordered(Known(log, household, ts[0])), household, ts[0])
    else
      match Chain(log, household, ts[..|ts| - 1])
      case Err(error) => Err(error)
      case Ok(s) => Applied(s, Ordered(Window(log, household, s.asOf, ts[|ts| - 1])), ts[|ts| - 1])
  }

  /** Along any schedule the first known set and the windows partition the final known set. */
  lemma {:induction false} WindowsTelescope(log: seq<InventoryEvent>, household: Uuid, ts: seq<Instant>)
    requires ts != [] && Nondecreasing(ts)
    ensures multiset(Known(log, household, ts[|ts| - 1])) ==
            multiset(Known(log, household, ts[0])) + multiset(Windows(log, household, ts))
  {
    if |ts| == 1 {
    } else {
      var init := ts[..|ts| - 1];
      WindowsTelescope(log, household, init);
      WindowPartition(log, household, ts[|ts| - 2], ts[|ts| - 1]);
      SortMembers(Window(log, household, ts[|ts| - 2], ts[|ts| - 1]), EventBefore);
    }
  }

  /** Any two schedules that end at the same instant give the same snapshot: the replay there. */
  lemma {:induction false} ScheduleNeverShows(log: seq<InventoryEvent>, household: Uuid, ts: seq<Instant>)
    requires ts != [] && Nondecreasing(ts)
    ensures Chain(log, household, ts) == Ok(Replay(log, household, ts[|ts| - 1]))
  {
    var asOf := ts[|ts| - 1];
    if |ts| == 1 {
      OrderedFold(Known(log, household, asOf));
      FoldedExactly(Ordered(Known(log, household, asOf)), household, asOf);
    } else {
      hide Applied, Freeze, Window, Known;
      var before := ts[|ts| - 2];
      ReplayNamesItsInstant(log, household, before);
      ScheduleNeverShows(log, household, ts[..|ts| - 1]);
      AdvanceReplay(log, household, before, asOf);
    }
  }

  lemma ReplayNamesItsInstant(log: seq<InventoryEvent>, household: Uuid, asOf: Instant)
    ensures Replay(log, household, asOf).asOf == asOf && Replay(log, household, asOf).household == household
  {
  }

  lemma AdvanceReplay(log: seq<InventoryEvent>, household: Uuid, before: Instant, asOf: Instant)
    requires before <= asOf
    ensures Applied(Replay(log, household, before), Ordered(Window(log, household, before, asOf)), asOf) ==
            Ok(Replay(log, household, asOf))
    ensures FoldTable(Known(log, household, asOf)) ==
            Merge(FoldTable(Known(log, household, before)), FoldTable(Window(log, household, before, asOf)))
  {
    var window := Window(log, household, before, asOf);
    OrderedFold(window);
    FreezeCanonical(household, before, FoldTable(Known(log, household, before)));
    AppliedExactly(Replay(log, household, before), Ordered(window), asOf);
    FoldTableConcat(Known(log, household, before), window);
    WindowPartition(log, household, before, asOf);
    FoldTablePermutation(Known(log, household, asOf), Known(log, household, before) + window);
  }

  // ------------------------------------------------------------ time only adds

  /** How a lot may change as the instant moves forward over a fixed log. */
  predicate NoLessThan(later: Totals, earlier: Totals) {
    && later.eventCount >= earlier.eventCount
    && later.purchased >= earlier.purchased
    && later.consumed >= earlier.consumed
    && later.discarded >= earlier.discarded
    && later.firstOccurredAt <= earlier.firstOccurredAt
    && later.lastOccurredAt >= earlier.lastOccurredAt
    && later.lastRecordedAt >= earlier.lastRecordedAt
    && (earlier.openedAt.Some? ==> later.openedAt.Some? && later.openedAt.value <= earlier.openedAt.value)
  }

  lemma {:induction false} FoldHasSigns(es: seq<InventoryEvent>)
    requires forall e :: e in es ==> EventRules(e)
    ensures forall k :: k in FoldTable(es) ==>
              var t := FoldTable(es)[k]; t.eventCount > 0 && t.purchased >= 0 && t.consumed >= 0 && t.discarded >= 0
  {
    if es == [] {
    } else {
      var init, e := es[..|es| - 1], es[|es| - 1];
      assert e in es;
      FoldHasSigns(init);
      assert LotsOf(es)[..|es| - 1] == LotsOf(init);
      assert FoldTable(es) == Absorb(FoldTable(init), LotFromEvent(e));
    }
  }

  lemma AddOnlyGrows(a: Totals, b: Option<Totals>)
    requires b.Some? ==> b.value.eventCount > 0 && b.value.purchased >= 0 && b.value.consumed >= 0 && b.value.discarded >= 0
    ensures NoLessThan(Add(Some(a), b).value, a)
  {
  }

  /** Moving the instant forward removes no lot and undoes nothing a lot has accumulated. */
  lemma MonotoneInTime(log: seq<InventoryEvent>, household: Uuid, before: Instant, asOf: Instant, k: LotKey)
    requires (forall e :: e in log ==> EventRules(e)) && before <= asOf
    requires k in TableOf(Replay(log, household, before).lots)
    ensures k in TableOf(Replay(log, household, asOf).lots)
    ensures NoLessThan(TableOf(Replay(log, household, asOf).lots)[k], TableOf(Replay(log, household, before).lots)[k])
  {
    var a, b := FoldTable(Known(log, household, before)), FoldTable(Window(log, household, before, asOf));
    FreezeCanonical(household, before, a);
    FreezeCanonical(household, asOf, FoldTable(Known(log, household, asOf)));
    AdvanceReplay(log, household, before, asOf);
    FoldHasSigns(Window(log, household, before, asOf));
    hide NoLessThan, Freeze, Known, Window;
    AddOnlyGrows(a[k], At(b, k));
    assert At(Merge(a, b), k) == Add(At(a, k), At(b, k));
  }

  // ------------------------------------------------------------ the past is fixed, and private

  lemma {:induction false} InsertAllAppends(log: seq<InventoryEvent>, es: seq<InventoryEvent>)
    requires InsertAll(log, es).Ok?
    ensures InsertAll(log, es).value == log + es
    decreases |es|
  {
    if es == [] {
      assert log + es == log;
    } else {
      InsertAllAppends(log + [es[0]], es[1..]);
      assert log + es == (log + [es[0]]) + es[1..];
    }
  }

  /** Whatever the call, the log afterwards is the log before it and what the call appended. */
  lemma LogOnlyGrows(st: Store, op: Op)
    ensures Step(st, op).0.log == st.log + Appended(st, op)
  {
    hide Rebuilt, Advanced, Get;
    match op
    case Append(h, drafts, now) =>
      if InsertAll(st.log, ToEvents(h, drafts, now)).Ok? {
        InsertAllAppends(st.log, ToEvents(h, drafts, now));
      }
    case Rebuild(h, asOf) => ProjectionsLeaveTheLog(st, h, asOf);
    case Advance(h, asOf) => ProjectionsLeaveTheLog(st, h, asOf);
    case _ =>
  }

  function DraftsOf(op: Op): seq<Draft> {
    match op
    case Append(_, drafts, _) => drafts
    case AppendIfNew(_, draft, _) => [draft]
    case _ => []
  }

  /** The event says what the draft said, for the household of the call and no other. */
  ghost predicate Carries(e: InventoryEvent, household: Uuid, draft: Draft, now: Instant) {
    var d := draft.event;
    && e.household == household && e.id == draft.id && e.idempotencyKey == d.idempotencyKey
    && e.product == d.product && e.eventType == d.eventType && e.delta == d.delta
    && e.location == d.location && e.printedDate == d.printedDate && e.labelType == d.labelType
    && e.unit == NormalizeUnit(d.unit)
    && e.occurredAt == d.occurredAt
    && (d.recordedAt.Some? ==> e.recordedAt == d.recordedAt.value)
    && (d.recordedAt.None? ==> e.recordedAt == now)
  }

  /** One call's appended events each carry one of its drafts. */
  lemma AppendedCarries(st: Store, op: Op, e: InventoryEvent) returns (k: nat)
    requires e in Appended(st, op)
    ensures op.Append? || op.AppendIfNew?
    ensures k < |DraftsOf(op)| && Carries(e, op.household, DraftsOf(op)[k], op.now)
  {
    hide Rebuilt, Advanced, Get, EventRules, FindByKey;
    k := 0;
    if op.Append? {
      k :| 0 <= k < |op.drafts| && ToEvents(op.household, op.drafts, op.now)[k] == e;
    }
  }

  /** After any run, every event in the log was carried there by a draft of one of the run's calls. */
  lemma {:induction false} LogHasProvenance(ops: seq<Op>, e: InventoryEvent) returns (i: nat, k: nat)
    requires e in After(ops).store.log
    ensures i < |ops| && (ops[i].Append? || ops[i].AppendIfNew?)
    ensures k < |DraftsOf(ops[i])| && Carries(e, ops[i].household, DraftsOf(ops[i])[k], ops[i].now)
  {
    hide Step, Appended, Carries, DraftsOf;
    var n := |ops| - 1;
    var st := After(ops[..n]).store;
    LogOnlyGrows(st, ops[n]);
    if e in st.log {
      i, k := LogHasProvenance(ops[..n], e);
    } else {
      k := AppendedCarries(st, ops[n], e);
      i := n;
    }
  }

  /** A selection none of whose new candidates qualify is unchanged. */
  lemma StepKeepsSelection(st: Store, op: Op, p: InventoryEvent -> bool)
    requires forall e :: e in Appended(st, op) ==> !p(e)
    ensures Where(Step(st, op).0.log, p) == Where(st.log, p)
  {
    LogOnlyGrows(st, op);
    WhereConcat(st.log, Appended(st, op), p);
    WhereNone(Appended(st, op), p);
  }

  /** The continuation of a run appends to this household nothing that was knowable at `asOf`. */
  ghost predicate AppendsLaterThan(ops: seq<Op>, more: seq<Op>, household: Uuid, asOf: Instant) {
    forall i :: 0 <= i < |more| ==> AppendsLaterAt(ops, more, i, household, asOf)
  }

  ghost predicate AppendsLaterAt(ops: seq<Op>, more: seq<Op>, i: nat, household: Uuid, asOf: Instant)
    requires i < |more|
  {
    forall e :: e in Appended(After(ops + more[..i]).store, more[i]) && e.household == household ==>
      e.occurredAt > asOf || e.recordedAt > asOf
  }

  lemma LaterStepKeepsPast(st: Store, op: Op, household: Uuid, asOf: Instant)
    requires forall e :: e in Appended(st, op) && e.household == household ==> e.occurredAt > asOf || e.recordedAt > asOf
    ensures Known(Step(st, op).0.log, household, asOf) == Known(st.log, household, asOf)
  {
    hide Step, Appended;
    StepKeepsSelection(st, op, (e: InventoryEvent) => Visible(e, household, asOf));
  }

  /** A past snapshot never changes while every new event has a clock after it. */
  lemma {:induction false} PastIsFixed(ops: seq<Op>, more: seq<Op>, household: Uuid, asOf: Instant)
    requires AppendsLaterThan(ops, more, household, asOf)
    ensures Known(After(ops + more).store.log, household, asOf) == Known(After(ops).store.log, household, asOf)
    ensures Replay(After(ops + more).store.log, household, asOf) == Replay(After(ops).store.log, household, asOf)
    decreases |more|
  {
    hide Step, Appended, FoldTable, After, Visible, Where;
    if more == [] {
      assert ops + more == ops;
    } else {
      var init, op := more[..|more| - 1], more[|more| - 1];
      forall i | 0 <= i < |init|
        ensures AppendsLaterAt(ops, init, i, household, asOf)
      {
        assert AppendsLaterAt(ops, more, i, household, asOf);
        assert init[..i] == more[..i] && init[i] == more[i];
      }
      PastIsFixed(ops, init, household, asOf);
      assert ops + more == ops + init + [op];
      StoreAfterOneMore(ops + init, op);
      assert AppendsLaterAt(ops, more, |init|, household, asOf);
      assert more[..|init|] == init;
      LaterStepKeepsPast(After(ops + init).store, op, household, asOf);
    }
  }

  predicate ForOthers(op: Op, household: Uuid) {
    op.Reorder? || op.household != household
  }

  lemma AppendedBelongs(st: Store, op: Op, e: InventoryEvent)
    requires e in Appended(st, op)
    ensures !op.Reorder? && e.household == op.household
  {
    hide Rebuilt, Advanced, Get;
    if op.Append? {
      var i :| 0 <= i < |op.drafts| && ToEvents(op.household, op.drafts, op.now)[i] == e;
    }
  }

  /** Everything the repositories read for a household comes from its own events and its own rows. */
  ghost predicate SameForHousehold(a: Store, b: Store, household: Uuid) {
    && Get(a.rows, household) == Get(b.rows, household)
    && (forall t :: Known(a.log, household, t) == Known(b.log, household, t))
    && (forall s, t :: Window(a.log, household, s, t) == Window(b.log, household, s, t))
    && (forall key :: FindByKey(a.log, household, key) == FindByKey(b.log, household, key))
    && (forall t :: Replay(a.log, household, t) == Replay(b.log, household, t))
  }

  function OwnEvents(log: seq<InventoryEvent>, household: Uuid): seq<InventoryEvent> {
    Where(log, (e: InventoryEvent) => e.household == household)
  }

  lemma ReadsOnlyOwnEvents(a: Store, b: Store, household: Uuid)
    requires OwnEvents(a.log, household) == OwnEvents(b.log, household)
    requires Get(a.rows, household) == Get(b.rows, household)
    ensures SameForHousehold(a, b, household)
  {
    var own := (e: InventoryEvent) => e.household == household;
    forall t
      ensures Known(a.log, household, t) == Known(b.log, household, t)
    {
      WhereWhere(a.log, own, (e: InventoryEvent) => Visible(e, household, t));
      WhereWhere(b.log, own, (e: InventoryEvent) => Visible(e, household, t));
    }
    forall s, t
      ensures Window(a.log, household, s, t) == Window(b.log, household, s, t)
    {
      var p := (e: InventoryEvent) => Visible(e, household, t) && (e.occurredAt > s || e.recordedAt > s);
      WhereWhere(a.log, own, p);
      WhereWhere(b.log, own, p);
    }
    forall key
      ensures FindByKey(a.log, household, key) == FindByKey(b.log, household, key)
    {
      var p := (e: InventoryEvent) => e.household == household && e.idempotencyKey == key;
      WhereWhere(a.log, own, p);
      WhereWhere(b.log, own, p);
    }
  }

  lemma StepKeepsOthersRows(w: World, op: Op, household: Uuid)
    requires Inv(w) && ForOthers(op, household)
    ensures Get(Step(w.store, op).0.rows, household) == Get(w.store.rows, household)
  {
    hide Get, TableRules, FitsColumns, Applied, Known, LogSound, Explained;
    var st := w.store;
    match op
    case Rebuild(h, asOf) => SaveFrame(st, h, Replay(st.log, h, asOf), household);
    case Advance(h, asOf) => AdvanceFrame(st, h, asOf, household);
    case Save(h, s) =>
      if s.household == h {
        SaveFrame(st, h, s, household);
      }
    case Clear(h) =>
      var nothing := EmptySnapshot(h, 0);
      assert RowsOfOthers(st.rows, h) + RowsOf(nothing) == RowsOfOthers(st.rows, h);
      SaveFrame(st, h, nothing, household);
    case Reorder(rows) =>
      if multiset(rows) == multiset(st.rows) {
        GetForgetsOrder(st.rows, rows, household);
      }
    case _ =>
  }

  lemma AdvanceFrame(st: Store, h: Uuid, asOf: Instant, household: Uuid)
    requires h != household
    ensures Get(Advanced(st, h, asOf).0.rows, household) == Get(st.rows, household)
  {
    GetNamesItsHousehold(st.rows, h);
    hide Get, TableRules, FitsColumns, Known;
    SaveFrame(st, h, Replay(st.log, h, asOf), household);
    if Get(st.rows, h).Some? {
      var current := Get(st.rows, h).value;
      var next := Applied(current, Ordered(Window(st.log, h, current.asOf, asOf)), asOf);
      if next.Ok? {
        SaveFrame(st, h, next.value, household);
      }
    }
  }

  lemma GetNamesItsHousehold(rows: seq<SnapshotRow>, household: Uuid)
    ensures Get(rows, household).Some? ==> Get(rows, household).value.household == household
  {
  }

  /** Tenancy: any run of other households' calls leaves every read of this household as it was. */
  lemma HouseholdFrame(ops: seq<Op>, more: seq<Op>, household: Uuid)
    requires forall i :: 0 <= i < |more| ==> ForOthers(more[i], household)
    ensures SameForHousehold(After(ops + more).store, After(ops).store, household)
  {
    OwnFrame(ops, more, household);
    ReadsOnlyOwnEvents(After(ops + more).store, After(ops).store, household);
  }

  lemma {:induction false} OwnFrame(ops: seq<Op>, more: seq<Op>, household: Uuid)
    requires forall i :: 0 <= i < |more| ==> ForOthers(more[i], household)
    ensures OwnEvents(After(ops + more).store.log, household) == OwnEvents(After(ops).store.log, household)
    ensures Get(After(ops + more).store.rows, household) == Get(After(ops).store.rows, household)
    decreases |more|
  {
    hide Inv, Get, Step, After, Appended;
    if more == [] {
      assert ops + more == ops;
    } else {
      var init, op := more[..|more| - 1], more[|more| - 1];
      OwnFrame(ops, init, household);
      assert ops + more == ops + init + [op];
      StoreAfterOneMore(ops + init, op);
      RunsKeepInv(ops + init);
      StepFrame(After(ops + init), op, household);
    }
  }

  lemma StepFrame(w: World, op: Op, household: Uuid)
    requires Inv(w) && ForOthers(op, household)
    ensures OwnEvents(Step(w.store, op).0.log, household) == OwnEvents(w.store.log, household)
    ensures Get(Step(w.store, op).0.rows, household) == Get(w.store.rows, household)
  {
    hide Inv, Get, Step, Appended;
    StepKeepsOthersRows(w, op, household);
    forall e | e in Appended(w.store, op)
      ensures e.household != household
    {
      AppendedBelongs(w.store, op, e);
    }
    StepKeepsSelection(w.store, op, (e: InventoryEvent) => e.household == household);
  }
}
