/** One lot: the events that feed it, what it accumulates, and how two accumulations merge. */
module Lots {
  import opened Basics
  import opened LotKeys

  type Instant = int

  datatype EventType = Purchased | Opened | Consumed | Discarded | Corrected | Moved

  /** An event in the append-only log. Quantities are thousandths, as Numeric(14, 3) stores them. */
  datatype InventoryEvent = InventoryEvent(
    id: Uuid,
    household: Uuid,
    product: Uuid,
    eventType: EventType,
    delta: int,
    unit: string,
    location: StorageLocation,
    printedDate: Option<Day>,
    labelType: Option<DateLabelType>,
    occurredAt: Instant,
    recordedAt: Instant,
    idempotencyKey: string)

  /** Everything the fold accumulates about one lot. */
  datatype Totals = Totals(
    quantity: int,
    purchased: int,
    consumed: int,
    discarded: int,
    eventCount: int,
    firstOccurredAt: Instant,
    lastOccurredAt: Instant,
    lastRecordedAt: Instant,
    openedAt: Option<Instant>)

  datatype LotState = LotState(key: LotKey, totals: Totals)

  datatype FoldError = DifferentLots | HouseholdMismatch | LabelLeakage

  function KeyFor(e: InventoryEvent): LotKey {
    LotKey(e.product, e.location, NormalizeUnit(e.unit), e.printedDate, e.labelType)
  }

  function LotFromEvent(e: InventoryEvent): LotState {
    LotState(KeyFor(e), Totals(
      e.delta,
      if e.eventType.Purchased? then e.delta else 0,
      if e.eventType.Consumed? then -e.delta else 0,
      if e.eventType.Discarded? then -e.delta else 0,
      1,
      e.occurredAt,
      e.occurredAt,
      e.recordedAt,
      if e.eventType.Opened? then Some(e.occurredAt) else None))
  }

  function Earliest(a: Option<Instant>, b: Option<Instant>): Option<Instant> {
    if a.None? then b else if b.None? then a else Some(Min(a.value, b.value))
  }

  function Plus(a: Totals, b: Totals): Totals {
    Totals(
      a.quantity + b.quantity,
      a.purchased + b.purchased,
      a.consumed + b.consumed,
      a.discarded + b.discarded,
      a.eventCount + b.eventCount,
      Min(a.firstOccurredAt, b.firstOccurredAt),
      Max(a.lastOccurredAt, b.lastOccurredAt),
      Max(a.lastRecordedAt, b.lastRecordedAt),
      Earliest(a.openedAt, b.openedAt))
  }

  /** Merging two states of one lot; different lots are refused. */
  function CombineLots(left: LotState, right: LotState): Result<LotState, FoldError> {
    if left.key != right.key then Err(DifferentLots)
    else Ok(LotState(left.key, Plus(left.totals, right.totals)))
  }

  // ------------------------------------------------- the monoid, with identity

  function Add(a: Option<Totals>, b: Option<Totals>): Option<Totals> {
    if a.None? then b else if b.None? then a else Some(Plus(a.value, b.value))
  }

  lemma AddAssociative(a: Option<Totals>, b: Option<Totals>, c: Option<Totals>)
    ensures Add(Add(a, b), c) == Add(a, Add(b, c))
  {
  }

  lemma AddCommutative(a: Option<Totals>, b: Option<Totals>)
    ensures Add(a, b) == Add(b, a)
  {
  }
}
