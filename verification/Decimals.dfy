/** Python's 28-digit decimal arithmetic never rounds here, so the fold's sums are the exact ones. */
module Decimals {
  import opened Lots
  import opened LotTables
  import opened Snapshots
  import opened Records

  /** Ten to the 28th: a coefficient below it has at most 28 digits. */
  const PRECISION_LIMIT := 10_000_000_000_000_000_000_000_000_000

  /** The power of ten a magnitude is rounded to so that 28 digits remain. */
  function Quantum(m: nat): (u: nat)
    ensures u > 0
  {
    if m < PRECISION_LIMIT then 1 else 10 * Quantum(m / 10)
  }

  /** Rounded to a multiple of the quantum, halves to even. */
  function RoundTo(m: nat, u: nat): nat
    requires u > 0
  {
    var q, r := m / u, m % u;
    if 2 * r < u || (2 * r == u && q % 2 == 0) then q * u else (q + 1) * u
  }

  /** A sum as the default decimal context returns it. */
  function Rounded(n: int): int {
    if n >= 0 then RoundTo(n, Quantum(n)) else 0 - RoundTo(-n, Quantum(-n))
  }

  lemma RoundedExact(n: int)
    requires -PRECISION_LIMIT < n < PRECISION_LIMIT
    ensures Rounded(n) == n
  {
    var m := if n >= 0 then n else -n;
    assert Quantum(m) == 1;
    assert m / 1 == m && m % 1 == 0;
  }

  /** A magnitude that needs more than 28 digits keeps exactly 28 of them. */
  lemma {:induction false} QuantumKeepsDigits(m: nat)
    ensures m < 10_000_000_000_000_000_000_000_000_000 ==> Quantum(m) == 1
    ensures m >= 10_000_000_000_000_000_000_000_000_000 ==>
              1_000_000_000_000_000_000_000_000_000 <= m / Quantum(m) < 10_000_000_000_000_000_000_000_000_000
    ensures PowerOfTen(Quantum(m))
  {
    if m < PRECISION_LIMIT {
    } else {
      QuantumKeepsDigits(m / 10);
      DivideTwice(m, Quantum(m / 10));
    }
  }

  predicate PowerOfTen(u: nat) {
    u == 1 || (u > 1 && u % 10 == 0 && PowerOfTen(u / 10))
  }

  lemma DivideTwice(m: nat, u: nat)
    requires u > 0
    ensures m / (10 * u) == (m / 10) / u
  {
    var a, b := m / 10, m % 10;
    var c, d := a / u, a % u;
    assert m == 10 * u * c + (10 * d + b);
    Quotient(m, 10 * u, c, 10 * d + b);
  }

  lemma Quotient(m: nat, u: nat, q: nat, r: nat)
    requires u > 0 && m == u * q + r && r < u
    ensures m / u == q
  {
    var d := q - m / u;
    assert u * d == u * q - u * (m / u) == m % u - r;
    Multiples(u, d);
  }

  lemma Multiples(u: nat, d: int)
    ensures d >= 1 ==> u * d >= u
    ensures d <= -1 ==> u * d + u <= 0
  {
    if d >= 1 {
      assert u * d == u * (d - 1) + u;
    } else if d <= -1 {
      assert u * d == u * (d + 1) - u;
    }
  }

  /** The result is a nearest multiple of the last digit kept, the even one of two equally near. */
  lemma RoundedIsNearest(m: nat, u: nat) returns (q: nat)
    requires u > 0
    ensures RoundTo(m, u) == q * u && Nearest(m, u, q)
  {
    var r := m % u;
    q := m / u;
    Remainders(m, u);
    if 2 * r < u || (2 * r == u && q % 2 == 0) {
    } else {
      q := q + 1;
    }
  }

  lemma Remainders(m: nat, u: nat)
    requires u > 0
    ensures m - m / u * u == m % u && m - (m / u + 1) * u == m % u - u
  {
  }

  predicate Nearest(m: nat, u: nat, q: nat) {
    && 2 * (m - q * u) <= u && 2 * (q * u - m) <= u
    && (2 * (m - q * u) == u || 2 * (q * u - m) == u ==> q % 2 == 0)
  }

  /** Beyond 28 digits the sum is no longer exact: the bound is where rounding begins. */
  lemma RoundingBegins()
    ensures Rounded(10_000_000_000_000_000_000_000_000_007) == 10_000_000_000_000_000_000_000_000_010
    ensures Rounded(-10_000_000_000_000_000_000_000_000_005) == -10_000_000_000_000_000_000_000_000_000
  {
    assert Quantum(10_000_000_000_000_000_000_000_000_007) == 10;
    assert Quantum(10_000_000_000_000_000_000_000_000_005) == 10;
  }

  function RoundedPlus(a: Totals, b: Totals): Totals {
    Plus(a, b).(
      quantity := Rounded(a.quantity + b.quantity),
      purchased := Rounded(a.purchased + b.purchased),
      consumed := Rounded(a.consumed + b.consumed),
      discarded := Rounded(a.discarded + b.discarded))
  }

  function RoundedAbsorb(m: LotTable, lot: LotState): LotTable {
    m[lot.key := if lot.key in m then RoundedPlus(m[lot.key], lot.totals) else lot.totals]
  }

  function RoundedFold(lots: seq<LotState>): LotTable {
    if lots == [] then map[] else RoundedAbsorb(RoundedFold(lots[..|lots| - 1]), lots[|lots| - 1])
  }

  function RoundedMerge(a: LotTable, b: LotTable): LotTable {
    map k | k in a.Keys + b.Keys ::
      if k in a && k in b then RoundedPlus(a[k], b[k]) else if k in a then a[k] else b[k]
  }

  // ------------------------------------------------------------ bounds

  predicate Within(t: Totals, bound: int) {
    && -bound <= t.quantity <= bound
    && -bound <= t.purchased <= bound
    && -bound <= t.consumed <= bound
    && -bound <= t.discarded <= bound
  }

  ghost predicate TableWithin(m: LotTable, bound: int) {
    forall k :: k in m ==> Within(m[k], bound)
  }

  lemma AbsorbWithin(m: LotTable, lot: LotState, bound: int, step: int)
    requires TableWithin(m, bound) && Within(lot.totals, step) && bound >= 0 && step >= 0
    ensures TableWithin(Absorb(m, lot), bound + step)
  {
  }

  lemma {:induction false} FoldBounded(es: seq<InventoryEvent>)
    requires forall e :: e in es ==> FitsQuantity(e.delta)
    ensures TableWithin(FoldTable(es), |es| * MAX_QUANTITY)
  {
    if es == [] {
    } else {
      var init, e := es[..|es| - 1], es[|es| - 1];
      assert e in es;
      FoldBounded(init);
      assert LotsOf(es)[..|es| - 1] == LotsOf(init);
      assert FoldTable(es) == Absorb(FoldTable(init), LotFromEvent(e));
      hide TableWithin, FoldTable;
      AbsorbWithin(FoldTable(init), LotFromEvent(e), |init| * MAX_QUANTITY, MAX_QUANTITY);
    }
  }

  lemma PlusNeverRounds(a: Totals, b: Totals, bound: int)
    requires Within(a, bound) && Within(b, PRECISION_LIMIT - 1 - bound)
    ensures RoundedPlus(a, b) == Plus(a, b)
  {
    RoundedExact(a.quantity + b.quantity);
    RoundedExact(a.purchased + b.purchased);
    RoundedExact(a.consumed + b.consumed);
    RoundedExact(a.discarded + b.discarded);
  }

  /** Merging two tables whose bounds leave room is exact. */
  lemma MergeNeverRounds(a: LotTable, b: LotTable, bound: int)
    requires TableWithin(a, bound) && TableWithin(b, PRECISION_LIMIT - 1 - bound)
    ensures RoundedMerge(a, b) == Merge(a, b)
  {
    forall k
      ensures At(RoundedMerge(a, b), k) == At(Merge(a, b), k)
    {
      if k in a && k in b {
        PlusNeverRounds(a[k], b[k], bound);
      }
    }
    SameEverywhere(RoundedMerge(a, b), Merge(a, b));
  }

  /** Folding up to 10^14 storable events with rounded addition is folding them exactly, in every order. */
  lemma {:induction false} FoldNeverRounds(es: seq<InventoryEvent>)
    requires |es| <= 100_000_000_000_000 && forall e :: e in es ==> -99_999_999_999_999 <= e.delta <= 99_999_999_999_999
    ensures RoundedFold(LotsOf(es)) == FoldTable(es)
  {
    if es == [] {
    } else {
      var init, e := es[..|es| - 1], es[|es| - 1];
      assert e in es;
      FoldNeverRounds(init);
      FoldBounded(init);
      assert LotsOf(es)[..|es| - 1] == LotsOf(init);
      var m, lot := FoldTable(init), LotFromEvent(e);
      if lot.key in m {
        PlusNeverRounds(m[lot.key], lot.totals, |init| * MAX_QUANTITY);
      }
    }
  }

  lemma FoldIgnoresOrderRounded(es: seq<InventoryEvent>, fs: seq<InventoryEvent>)
    requires multiset(es) == multiset(fs)
    requires |es| <= 100_000_000_000_000 && forall e :: e in es ==> -99_999_999_999_999 <= e.delta <= 99_999_999_999_999
    ensures RoundedFold(LotsOf(es)) == RoundedFold(LotsOf(fs))
  {
    assert |es| == |multiset(es)| && |fs| == |multiset(fs)|;
    assert forall e :: e in fs ==> e in multiset(fs);
    assert forall e :: e in multiset(es) ==> e in es;
    FoldNeverRounds(es);
    FoldNeverRounds(fs);
    FoldTablePermutation(es, fs);
  }

  ghost function RoundedShards(t: ShardTree): LotTable {
    match t
    case Shard(es, _) => RoundedFold(LotsOf(es))
    case Join(l, r) => RoundedMerge(RoundedShards(l), RoundedShards(r))
  }

  /** No merge order rounds either: any tree of shards with rounded addition gives the exact fold of all events. */
  lemma {:induction false} MergeOrderNeverRounds(t: ShardTree)
    requires |AllEvents(t)| <= 100_000_000_000_000 && forall e :: e in AllEvents(t) ==> -99_999_999_999_999 <= e.delta <= 99_999_999_999_999
    ensures RoundedShards(t) == FoldTable(AllEvents(t))
  {
    match t
    case Shard(es, _) => FoldNeverRounds(es);
    case Join(l, r) =>
      var es, fs := AllEvents(l), AllEvents(r);
      MergeOrderNeverRounds(l);
      MergeOrderNeverRounds(r);
      FoldBounded(es);
      FoldBounded(fs);
      assert |es| * MAX_QUANTITY + |fs| * MAX_QUANTITY < PRECISION_LIMIT;
      Widen(FoldTable(fs), |fs| * MAX_QUANTITY, PRECISION_LIMIT - 1 - |es| * MAX_QUANTITY);
      MergeNeverRounds(FoldTable(es), FoldTable(fs), |es| * MAX_QUANTITY);
      FoldTableConcat(es, fs);
  }

  lemma Widen(m: LotTable, bound: int, wider: int)
    requires TableWithin(m, bound) && bound <= wider
    ensures TableWithin(m, wider)
  {
  }
}
