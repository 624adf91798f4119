/** The event log and the snapshot table: what each query reads and what each write does, on values. */
module Records {
  import opened Basics
  import opened LotKeys
  import opened Lots
  import opened LotTables
  import opened Selections
  import opened Sorting
  import opened Snapshots

  /** An event about to be appended; a missing `recordedAt` is stamped by the database clock. */
  datatype NewInventoryEvent = NewInventoryEvent(
    product: Uuid,
    eventType: EventType,
    delta: int,
    unit: string,
    location: StorageLocation,
    printedDate: Option<Day>,
    labelType: Option<DateLabelType>,
    occurredAt: Instant,
    idempotencyKey: string,
    recordedAt: Option<Instant>)

  /** A new event with the id the database generates for its row. */
  datatype Draft = Draft(event: NewInventoryEvent, id: Uuid)

  datatype SnapshotRow = SnapshotRow(household: Uuid, lot: LotState, asOf: Instant)

  /** The two tables. The log is in insertion order; the rows are in whatever order they lie. */
  datatype Store = Store(log: seq<InventoryEvent>, rows: seq<SnapshotRow>)

  datatype StoreError =
    | ConstraintViolated
    | DuplicateRow
    | KeyUsedElsewhere
    | NumericOverflow
    | Refused(error: FoldError)

  // ------------------------------------------------------------ constraints

  const MAX_QUANTITY := 99_999_999_999_999
  const MAX_COUNT := 2_147_483_647

  /** Fits a Numeric(14, 3) column. */
  predicate FitsQuantity(q: int) {
    -MAX_QUANTITY <= q <= MAX_QUANTITY
  }

  predicate NotBlank(s: string) {
    exists c | c in s :: c != ' '
  }

  /** The check constraints and column sizes of `inventory_events`. */
  predicate EventRules(e: InventoryEvent) {
    && FitsQuantity(e.delta)
    && (e.eventType.Purchased? ==> e.delta >= 0)
    && (e.eventType.Consumed? || e.eventType.Discarded? ==> e.delta <= 0)
    && (e.labelType.Some? ==> e.printedDate.Some?)
    && NotBlank(e.unit) && |e.unit| <= 24
    && NotBlank(e.idempotencyKey) && |e.idempotencyKey| <= 200
  }

  /** The unique lot key (NULLs equal), the check constraints and the unit size of `inventory_snapshot`. */
  predicate TableRules(lots: seq<LotState>) {
    && DistinctKeys(lots)
    && forall lot :: lot in lots ==> LotRules(lot)
  }

  predicate LotRules(lot: LotState) {
    && lot.totals.eventCount > 0
    && (lot.key.labelType.Some? ==> lot.key.printedDate.Some?)
    && |lot.key.unit| <= 24
  }

  predicate FitsColumns(lots: seq<LotState>) {
    forall lot :: lot in lots ==>
      && FitsQuantity(lot.totals.quantity)
      && FitsQuantity(lot.totals.purchased)
      && FitsQuantity(lot.totals.consumed)
      && FitsQuantity(lot.totals.discarded)
      && lot.totals.eventCount <= MAX_COUNT
  }

  // ------------------------------------------------------------ the log

  /** `_to_values`: the row an event becomes, its unit normalised and its missing clock stamped. */
  function ToEvent(household: Uuid, draft: Draft, now: Instant): InventoryEvent {
    var event := draft.event;
    InventoryEvent(draft.id, household, event.product, event.eventType, event.delta, NormalizeUnit(event.unit),
                   event.location, event.printedDate, event.labelType, event.occurredAt,
                   if event.recordedAt.Some? then event.recordedAt.value else now, event.idempotencyKey)
  }

  predicate KeyTaken(log: seq<InventoryEvent>, key: string) {
    exists e | e in log :: e.idempotencyKey == key
  }

  predicate IdTaken(log: seq<InventoryEvent>, id: Uuid) {
    exists e | e in log :: e.id == id
  }

  function ToEvents(household: Uuid, drafts: seq<Draft>, now: Instant): (es: seq<InventoryEvent>)
    ensures |es| == |drafts|
    ensures forall i :: 0 <= i < |es| ==> es[i] == ToEvent(household, drafts[i], now)
  {
    seq(|drafts|, i requires 0 <= i < |drafts| => ToEvent(household, drafts[i], now))
  }

  /** Inserting a batch: all of it or none of it. */
  function InsertAll(log: seq<InventoryEvent>, es: seq<InventoryEvent>): Result<seq<InventoryEvent>, StoreError>
    decreases |es|
  {
    if es == [] then Ok(log)
    else if !EventRules(es[0]) then Err(ConstraintViolated)
    else if KeyTaken(log, es[0].idempotencyKey) || IdTaken(log, es[0].id) then Err(DuplicateRow)
    else InsertAll(log + [es[0]], es[1..])
  }

  function EventsWithKey(log: seq<InventoryEvent>, household: Uuid, key: string): seq<InventoryEvent> {
    Where(log, (e: InventoryEvent) => e.household == household && e.idempotencyKey == key)
  }

  function FindByKey(log: seq<InventoryEvent>, household: Uuid, key: string): Option<InventoryEvent> {
    var found := EventsWithKey(log, household, key);
    if found == [] then None else Some(found[0])
  }

  /** Insert-or-ignore on the idempotency key, then look the key up within the household. */
  function InsertIfNew(log: seq<InventoryEvent>, e: InventoryEvent): Result<(InventoryEvent, bool), StoreError> {
    if !EventRules(e) then Err(ConstraintViolated)
    else if !KeyTaken(log, e.idempotencyKey) then
      if IdTaken(log, e.id) then Err(DuplicateRow) else Ok((e, true))
    else
      match FindByKey(log, e.household, e.idempotencyKey)
      case Some(existing) => Ok((existing, false))
      case None => Err(KeyUsedElsewhere)
  }

  /** Both clocks: everything this household's log knew at `asOf`. */
  function Known(log: seq<InventoryEvent>, household: Uuid, asOf: Instant): seq<InventoryEvent> {
    Where(log, (e: InventoryEvent) => Visible(e, household, asOf))
  }

  /** The same, optionally narrowed to one product. */
  function KnownOf(log: seq<InventoryEvent>, household: Uuid, asOf: Instant, product: Option<Uuid>): seq<InventoryEvent> {
    if product.None? then Known(log, household, asOf)
    else Where(Known(log, household, asOf), (e: InventoryEvent) => e.product == product.value)
  }

  /** Events that became known in (after, asOf], by either clock. */
  function Window(log: seq<InventoryEvent>, household: Uuid, after: Instant, asOf: Instant): seq<InventoryEvent> {
    Where(log, (e: InventoryEvent) => Visible(e, household, asOf) && (e.occurredAt > after || e.recordedAt > after))
  }

  /** `_ordered`: system time, then kitchen time, then id. */
  predicate EventBefore(a: InventoryEvent, b: InventoryEvent) {
    || a.recordedAt < b.recordedAt
    || (a.recordedAt == b.recordedAt && a.occurredAt < b.occurredAt)
    || (a.recordedAt == b.recordedAt && a.occurredAt == b.occurredAt && a.id < b.id)
  }

  function Ordered(es: seq<InventoryEvent>): seq<InventoryEvent> {
    Sort(es, EventBefore)
  }

  /** A query returns every event it selects exactly as often as the log holds it, oldest knowledge first. */
  lemma OrderedIsSorted(es: seq<InventoryEvent>)
    ensures multiset(Ordered(es)) == multiset(es)
    ensures forall e :: e in Ordered(es) <==> e in es
    ensures OldestKnowledgeFirst(Ordered(es))
  {
    SortMembers(es, EventBefore);
    SameElements(es, Ordered(es));
    SortInOrder(es, EventBefore);
  }

  /** By recorded clock; within one recorded instant by occurred clock; within both by id. */
  ghost predicate OldestKnowledgeFirst(es: seq<InventoryEvent>) {
    forall i, j :: 0 <= i < j < |es| ==>
      && es[i].recordedAt <= es[j].recordedAt
      && (es[i].recordedAt == es[j].recordedAt ==> es[i].occurredAt <= es[j].occurredAt)
      && (es[i].recordedAt == es[j].recordedAt && es[i].occurredAt == es[j].occurredAt ==> es[i].id <= es[j].id)
  }

  /** The full replay: the reference every incremental path is measured against. */
  ghost function Replay(log: seq<InventoryEvent>, household: Uuid, asOf: Instant): InventorySnapshot {
    Freeze(household, asOf, FoldTable(Known(log, household, asOf)))
  }

  /** Folding a query result, in the order the query returns it, is the replay. */
  lemma OrderedFold(es: seq<InventoryEvent>)
    ensures FoldTable(Ordered(es)) == FoldTable(es)
    ensures forall e :: e in Ordered(es) <==> e in es
  {
    SortMembers(es, EventBefore);
    SameElements(es, Ordered(es));
    FoldTablePermutation(Ordered(es), es);
  }

  // ------------------------------------------------------------ the snapshot table

  function RowsFor(rows: seq<SnapshotRow>, household: Uuid): seq<SnapshotRow> {
    Where(rows, (r: SnapshotRow) => r.household == household)
  }

  function RowsOfOthers(rows: seq<SnapshotRow>, household: Uuid): seq<SnapshotRow> {
    Where(rows, (r: SnapshotRow) => r.household != household)
  }

  function LotsIn(rows: seq<SnapshotRow>): (lots: seq<LotState>)
    ensures |lots| == |rows|
    ensures forall i :: 0 <= i < |rows| ==> lots[i] == rows[i].lot
  {
    seq(|rows|, i requires 0 <= i < |rows| => rows[i].lot)
  }

  function LatestAsOf(rows: seq<SnapshotRow>): Instant
    requires rows != []
  {
    if |rows| == 1 then rows[0].asOf
    else Max(LatestAsOf(rows[..|rows| - 1]), rows[|rows| - 1].asOf)
  }

  /** The stored projection, or nothing when the household has no rows. */
  function Get(rows: seq<SnapshotRow>, household: Uuid): Option<InventorySnapshot> {
    var own := RowsFor(rows, household);
    if own == [] then None
    else Some(InventorySnapshot(household, LatestAsOf(own), SortLots(LotsIn(own))))
  }

  function RowsOf(s: InventorySnapshot): (rows: seq<SnapshotRow>)
    ensures |rows| == |s.lots|
    ensures forall i :: 0 <= i < |rows| ==> rows[i] == SnapshotRow(s.household, s.lots[i], s.asOf)
  {
    seq(|s.lots|, i requires 0 <= i < |s.lots| => SnapshotRow(s.household, s.lots[i], s.asOf))
  }

  /** Delete the household's rows, then insert one per lot; a rejected insert undoes the delete. */
  function Saved(st: Store, household: Uuid, s: InventorySnapshot): Result<Store, StoreError> {
    if s.household != household then Err(Refused(HouseholdMismatch))
    else if !TableRules(s.lots) then Err(ConstraintViolated)
    else if !FitsColumns(s.lots) then Err(NumericOverflow)
    else Ok(Store(st.log, RowsOfOthers(st.rows, household) + RowsOf(s)))
  }

  /** Store a computed snapshot and hand it back. */
  function SaveAndReturn(st: Store, s: InventorySnapshot): (Store, Result<InventorySnapshot, StoreError>) {
    match Saved(st, s.household, s)
    case Ok(st') => (st', Ok(s))
    case Err(error) => (st, Err(error))
  }

  ghost function Rebuilt(st: Store, household: Uuid, asOf: Instant): (Store, Result<InventorySnapshot, StoreError>) {
    SaveAndReturn(st, Replay(st.log, household, asOf))
  }

  /** No stored projection: rebuild. An earlier instant: replay, store nothing. Otherwise fold in the window. */
  ghost function Advanced(st: Store, household: Uuid, asOf: Instant): (Store, Result<InventorySnapshot, StoreError>) {
    match Get(st.rows, household)
    case None => Rebuilt(st, household, asOf)
    case Some(current) =>
      if asOf < current.asOf then (st, Ok(Replay(st.log, household, asOf)))
      else
        var window := Ordered(Window(st.log, household, current.asOf, asOf));
        match Applied(current, window, asOf)
        case Err(error) => (st, Err(Refused(error)))
        case Ok(next) => SaveAndReturn(st, next)
  }

  function Cleared(st: Store, household: Uuid): Store {
    Store(st.log, RowsOfOthers(st.rows, household))
  }
}
